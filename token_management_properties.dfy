/** What the token-management builders promise: the order and content of the
    active properties, the layout of every payload, the transaction wiring,
    and the payloads of the repository's issuance tests. */
module TokenManagementProperties {
  import opened Wrappers
  import opened Payload
  import opened TokenManagementBuilders

  // ----- Active properties -----

  /** Selecting the active names commutes with splitting the table, so the
      selected names keep the order of the table. */
  lemma {:induction false} ActiveNamesAppend(a: PropertyTable, b: PropertyTable)
    ensures ActiveNames(a + b) == ActiveNames(a) + ActiveNames(b)
  {
    if a == [] {
      assert a + b == b;
    } else {
      assert (a + b)[0] == a[0];
      assert (a + b)[1..] == a[1..] + b;
      ActiveNamesAppend(a[1..], b);
    }
  }

  /** A name is active exactly when the table lists it with a true flag. */
  lemma {:induction false} ActiveNamesMembership(t: PropertyTable, n: string)
    ensures n in ActiveNames(t) <==> (n, true) in t
  {
    if t != [] {
      ActiveNamesMembership(t[1..], n);
      assert t == [t[0]] + t[1..];
    }
  }

  /** The names a single table entry contributes. */
  function Pick(e: (string, bool)): seq<string>
  {
    if e.1 then [e.0] else []
  }

  lemma ActiveNamesStep(t: PropertyTable, k: nat)
    requires k < |t|
    ensures ActiveNames(t[k..]) == Pick(t[k]) + ActiveNames(t[k + 1..])
  {
    assert t[k..][0] == t[k];
    assert t[k..][1..] == t[k + 1..];
  }

  /** A false flag contributes nothing: the table without it selects the same names. */
  lemma InactiveFlagContributesNothing(t: PropertyTable, i: nat)
    requires i < |t| && !t[i].1
    ensures ActiveNames(t) == ActiveNames(t[..i] + t[i + 1..])
  {
    assert t == t[..i] + t[i..];
    ActiveNamesAppend(t[..i], t[i..]);
    ActiveNamesStep(t, i);
    ActiveNamesAppend(t[..i], t[i + 1..]);
  }

  /** A true flag contributes its name, after the names selected before it and
      before the names selected after it. */
  lemma ActiveFlagContributesItsName(t: PropertyTable, i: nat)
    requires i < |t| && t[i].1
    ensures ActiveNames(t) == ActiveNames(t[..i]) + [t[i].0] + ActiveNames(t[i + 1..])
  {
    assert t == t[..i] + t[i..];
    ActiveNamesAppend(t[..i], t[i..]);
    ActiveNamesStep(t, i);
  }

  /** The active properties of an issuance: the common flags in table order, then,
      for the non-fungible kinds, the NFT-create-role transfer flag. */
  lemma ActiveTokenPropertiesByFlag(b: IssueBuilder)
    ensures ActiveTokenProperties(b)
      == ActiveNames(CommonTable(b.token.flags))
       + (if b.token.Fungible? then [] else Pick((TransferNftCreateRole, b.token.canTransferNftCreateRole)))
  {
    if !b.token.Fungible? {
      var last := (TransferNftCreateRole, b.token.canTransferNftCreateRole);
      ActiveNamesAppend(CommonTable(b.token.flags), [last]);
      ActiveNamesStep([last], 0);
      assert [last][1..] == [];
    }
  }

  /** A property is active on a fungible issuance exactly when it is one of the
      common flags and was passed as true. */
  lemma FungibleActiveProperties(config: Config, issuer: Address, name: string, ticker: string,
                                 supply: int, decimals: int, flags: Flags, opts: TxOptions, n: string)
    ensures n in ActiveTokenProperties(FungibleTokenIssue(config, issuer, name, ticker, supply, decimals, flags, opts).issue)
        <==> (n, true) in CommonTable(flags)
  {
    ActiveNamesMembership(CommonTable(flags), n);
  }

  /** A property is active on a non-fungible issuance exactly when it was passed as
      true, the NFT-create-role transfer flag included. */
  lemma NonFungibleActiveProperties(config: Config, issuer: Address, name: string, ticker: string,
                                    flags: Flags, transfer: bool, opts: TxOptions, n: string)
    ensures n in ActiveTokenProperties(NonFungibleTokenIssue(config, issuer, name, ticker, flags, transfer, opts).issue)
        <==> (n, true) in CommonTable(flags) + [(TransferNftCreateRole, transfer)]
  {
    ActiveNamesMembership(CommonTable(flags) + [(TransferNftCreateRole, transfer)], n);
  }

  lemma SemiFungibleActiveProperties(config: Config, issuer: Address, name: string, ticker: string,
                                     flags: Flags, transfer: bool, opts: TxOptions, n: string)
    ensures n in ActiveTokenProperties(SemiFungibleTokenIssue(config, issuer, name, ticker, flags, transfer, opts).issue)
        <==> (n, true) in CommonTable(flags) + [(TransferNftCreateRole, transfer)]
  {
    ActiveNamesMembership(CommonTable(flags) + [(TransferNftCreateRole, transfer)], n);
  }

  lemma MetaFungibleActiveProperties(config: Config, issuer: Address, name: string, ticker: string,
                                     decimals: int, flags: Flags, transfer: bool, opts: TxOptions, n: string)
    ensures n in ActiveTokenProperties(MetaFungibleTokenIssue(config, issuer, name, ticker, decimals, flags, transfer, opts).issue)
        <==> (n, true) in CommonTable(flags) + [(TransferNftCreateRole, transfer)]
  {
    ActiveNamesMembership(CommonTable(flags) + [(TransferNftCreateRole, transfer)], n);
  }

  /** The common part of every table comes first and in the same order; only the
      non-fungible kinds append the NFT-create-role transfer flag, last. */
  lemma PropertyTableShape(t: IssuedToken)
    ensures |CommonTable(t.flags)| == 8 && Names(CommonTable(t.flags)) == CommonPropertyNames
    ensures t.Fungible? ==> TokenProperties(t) == CommonTable(t.flags)
    ensures t.Fungible? ==> TransferNftCreateRole !in Names(TokenProperties(t))
    ensures !t.Fungible? ==> TokenProperties(t) == CommonTable(t.flags) + [(TransferNftCreateRole, t.canTransferNftCreateRole)]
  {
    var names := Names(CommonTable(t.flags));
    assert names == CommonPropertyNames;
  }

  // ----- Payload layouts -----

  /** An issuance payload is the endpoint, the encoded token arguments, then for
      each active property its encoded name immediately followed by the encoded
      "true", in table order. */
  lemma IssuePayloadLayout(b: IssueBuilder, enc: Encoder)
    ensures var p, args, active := IssuePayloadParts(b, enc), TokenArgs(b.token), ActiveTokenProperties(b);
      && |p| == 1 + |args| + 2 * |active|
      && p[0] == b.issuanceEndpoint
      && (forall i :: 0 <= i < |args| ==> p[1 + i] == enc(args[i]))
      && (forall k :: 0 <= k < |active| ==>
            p[1 + |args| + 2 * k] == enc(Str(active[k])) && p[2 + |args| + 2 * k] == enc(Str("true")))
  {
    var p, args, active := IssuePayloadParts(b, enc), TokenArgs(b.token), ActiveTokenProperties(b);
    var props := EncodeAll(enc, PropertyArgs(active));
    assert p == [b.issuanceEndpoint] + EncodeAll(enc, args) + props;
    forall k | 0 <= k < |active|
      ensures p[1 + |args| + 2 * k] == enc(Str(active[k])) && p[2 + |args| + 2 * k] == enc(Str("true"))
    {
      PropertyArgsAt(active, k);
      assert p[1 + |args| + 2 * k] == props[2 * k];
      assert p[2 + |args| + 2 * k] == props[2 * k + 1];
    }
  }

  /** A role payload is the endpoint chosen by the set/unset flag, the encoded
      token identifier and target, then the encoded roles in the given order. */
  lemma RolesPayloadLayout(b: RolesBuilder, enc: Encoder)
    ensures var p := RolesPayloadParts(b, enc);
      && |p| == 3 + |b.roles|
      && (p[0] == "setSpecialRole" <==> b.isSet)
      && (p[0] == "unsetSpecialRole" <==> !b.isSet)
      && p[1] == enc(Str(b.tokenIdentifier)) && p[2] == enc(Addr(b.target))
      && (forall i :: 0 <= i < |b.roles| ==> p[3 + i] == enc(Str(b.roles[i])))
  {
  }

  /** Every part after the endpoint is an encoded argument. */
  lemma PartsAfterEndpointAreEncoded(b: Builder, enc: Encoder, i: nat)
    requires 0 < i < |PayloadParts(b, enc)|
    ensures exists a: Arg :: PayloadParts(b, enc)[i] == enc(a)
  {
    match b
    case Issue(ib) =>
      var args, props := EncodeAll(enc, TokenArgs(ib.token)), EncodeAll(enc, PropertyArgs(ActiveTokenProperties(ib)));
      var p := PayloadParts(b, enc);
      assert p == [ib.issuanceEndpoint] + args + props;
      if i <= |args| {
        assert p[i] == enc(TokenArgs(ib.token)[i - 1]);
      } else {
        assert p[i] == enc(PropertyArgs(ActiveTokenProperties(ib))[i - 1 - |args|]);
      }
    case Roles(rb) =>
      var p := PayloadParts(b, enc);
      if i == 1 {
        assert p[i] == enc(Str(rb.tokenIdentifier));
      } else if i == 2 {
        assert p[i] == enc(Addr(rb.target));
      } else {
        assert p[i] == enc(RoleArgs(rb.roles)[i - 3]);
      }
    case Mint(mb) =>
      var p := PayloadParts(b, enc);
      if i == 1 {
        assert p[i] == enc(Str(mb.tokenIdentifier));
      } else {
        assert p[i] == enc(Int(mb.amountAsInteger));
      }
  }

  /** When no encoding contains `@`, the payload data splits back into its parts. */
  lemma BuildPayloadSplits(b: Builder, enc: Encoder)
    requires forall a: Arg :: '@' !in enc(a)
    requires b.Issue? ==> '@' !in b.issue.issuanceEndpoint
    ensures Split(BuildPayload(b, enc)) == PayloadParts(b, enc)
  {
    var p := PayloadParts(b, enc);
    forall i | 0 <= i < |p|
      ensures '@' !in p[i]
    {
      if i > 0 {
        PartsAfterEndpointAreEncoded(b, enc, i);
      }
    }
    SplitJoin(p);
  }

  // ----- Transaction wiring -----

  /** An issuance always carries the issue cost as its value, whatever value the
      caller passed; it goes from the issuer to the ESDT system contract and its
      execution is estimated at the issuance gas limit. */
  lemma IssueWiring(config: Config, issuer: Address, endpoint: string, token: IssuedToken, opts: TxOptions, value: Option<nat>)
    ensures var b := TokenIssue(config, issuer, endpoint, token, opts);
      && Header(b) == Header(TokenIssue(config, issuer, endpoint, token, opts.(value := value)))
      && Header(b).value == Some(config.issueCost)
      && Header(b).sender == issuer && Header(b).receiver == config.esdtContractAddress
      && EstimateExecutionGas(b) == config.gasLimitEsdtIssue
  {
  }

  /** A role transaction goes to the ESDT system contract, its endpoint follows
      the set/unset flag and its execution is estimated at the roles gas limit. */
  lemma RolesWiring(config: Config, sender: Address, isSet: bool, tokenIdentifier: string,
                    target: Address, roles: seq<string>, opts: TxOptions, enc: Encoder)
    ensures var b := ManageTokenRoles(config, sender, isSet, tokenIdentifier, target, roles, opts);
      && Header(b).sender == sender && Header(b).receiver == config.esdtContractAddress
      && EstimateExecutionGas(b) == config.gasLimitEsdtRoles
      && |PayloadParts(b, enc)| == 3 + |roles|
      && PayloadParts(b, enc)[0] == (if isSet then "setSpecialRole" else "unsetSpecialRole")
      && PayloadParts(b, enc)[3..] == EncodeAll(enc, RoleArgs(roles))
  {
    RolesPayloadLayout(ManageTokenRoles(config, sender, isSet, tokenIdentifier, target, roles, opts).roles, enc);
  }

  /** A local mint is sent by the sender to itself, with exactly three payload parts. */
  lemma MintWiring(config: Config, sender: Address, tokenIdentifier: string, amount: int, opts: TxOptions, enc: Encoder)
    ensures var b := FungibleMint(config, sender, tokenIdentifier, amount, opts);
      && Header(b).receiver == Header(b).sender == sender
      && EstimateExecutionGas(b) == config.gasLimitFungibleMint
      && PayloadParts(b, enc) == ["ESDTLocalMint", enc(Str(tokenIdentifier)), enc(Int(amount))]
  {
  }

  /** With the extended default configuration, role transactions are estimated at
      60000000 gas and local mints at 300000, whatever the SDK defaults are. */
  lemma DefaultConfigurationGas(issueCost: nat, gasLimitEsdtIssue: nat, esdt: Address, sender: Address,
                                isSet: bool, tokenIdentifier: string, target: Address, roles: seq<string>,
                                amount: int, opts: TxOptions)
    ensures var config := MyDefaultConfiguration(issueCost, gasLimitEsdtIssue, esdt);
      && EstimateExecutionGas(ManageTokenRoles(config, sender, isSet, tokenIdentifier, target, roles, opts)) == 60000000
      && EstimateExecutionGas(FungibleMint(config, sender, tokenIdentifier, amount, opts)) == 300000
      && Header(ManageTokenRoles(config, sender, isSet, tokenIdentifier, target, roles, opts)).receiver == esdt
  {
  }

  // ----- The repository's issuance tests -----

  const Issuer := Address("erd17jcn20jh2k868vg0mm7yh0trdd5mxpy4jzasaf2uraffpae0yrjsvu6txw")

  /** Evaluates the selection over a concrete table, entry by entry from the end. */
  lemma ActiveOfPauseUpgrade()
    ensures ActiveNames(CommonTable(Flags(canPause := true, canUpgrade := true))) == ["canPause", "canUpgrade"]
  {
    var t := CommonTable(Flags(canPause := true, canUpgrade := true));
    assert t[8..] == [];
    ActiveNamesStep(t, 7); ActiveNamesStep(t, 6); ActiveNamesStep(t, 5); ActiveNamesStep(t, 4);
    ActiveNamesStep(t, 3); ActiveNamesStep(t, 2); ActiveNamesStep(t, 1); ActiveNamesStep(t, 0);
    assert t[0..] == t;
  }

  lemma ActiveOfUpgradeTransfer()
    ensures ActiveNames(CommonTable(Flags(canUpgrade := true)) + [(TransferNftCreateRole, true)])
            == ["canUpgrade", TransferNftCreateRole]
  {
    var t := CommonTable(Flags(canUpgrade := true)) + [(TransferNftCreateRole, true)];
    assert t[9..] == [];
    ActiveNamesStep(t, 8); ActiveNamesStep(t, 7); ActiveNamesStep(t, 6); ActiveNamesStep(t, 5); ActiveNamesStep(t, 4);
    ActiveNamesStep(t, 3); ActiveNamesStep(t, 2); ActiveNamesStep(t, 1); ActiveNamesStep(t, 0);
    assert t[0..] == t;
  }

  lemma ActiveOfBurnUpgradeTransfer()
    ensures ActiveNames(CommonTable(Flags(canBurn := true, canUpgrade := true)) + [(TransferNftCreateRole, true)])
            == ["canBurn", "canUpgrade", TransferNftCreateRole]
  {
    var t := CommonTable(Flags(canBurn := true, canUpgrade := true)) + [(TransferNftCreateRole, true)];
    assert t[9..] == [];
    ActiveNamesStep(t, 8); ActiveNamesStep(t, 7); ActiveNamesStep(t, 6); ActiveNamesStep(t, 5); ActiveNamesStep(t, 4);
    ActiveNamesStep(t, 3); ActiveNamesStep(t, 2); ActiveNamesStep(t, 1); ActiveNamesStep(t, 0);
    assert t[0..] == t;
  }

  /** Active properties follow the table order, not the order flags are given in:
      the NFT-create-role transfer flag, declared last, comes after canUpgrade. */
  lemma ActiveOrderFollowsTable(config: Config)
    ensures ActiveTokenProperties(NonFungibleTokenIssue(config, Issuer, "MyToken", "MTK",
              Flags(canUpgrade := true), true).issue) == ["canUpgrade", TransferNftCreateRole]
  {
    ActiveOfUpgradeTransfer();
  }

  lemma PropertyArgsCons(n: string, rest: seq<string>)
    ensures PropertyArgs([n] + rest) == [Str(n), Str("true")] + PropertyArgs(rest)
  {
    assert ([n] + rest)[1..] == rest;
  }

  lemma PropertyArgsOfTwo(x: string, y: string)
    ensures PropertyArgs([x, y]) == [Str(x), Str("true"), Str(y), Str("true")]
  {
    PropertyArgsCons(y, []);
    assert [y] + [] == [y];
    PropertyArgsCons(x, [y]);
    assert [x] + [y] == [x, y];
  }

  lemma PropertyArgsOfThree(x: string, y: string, z: string)
    ensures PropertyArgs([x, y, z]) == [Str(x), Str("true"), Str(y), Str("true"), Str(z), Str("true")]
  {
    PropertyArgsOfTwo(y, z);
    PropertyArgsCons(x, [y, z]);
    assert [x] + [y, z] == [x, y, z];
  }

  /** The parts of an issuance payload whose active properties are known. */
  lemma IssuePartsWith(b: IssueBuilder, enc: Encoder, active: seq<string>)
    requires ActiveTokenProperties(b) == active
    ensures IssuePayloadParts(b, enc) == [b.issuanceEndpoint] + EncodeAll(enc, TokenArgs(b.token)) + EncodeAll(enc, PropertyArgs(active))
  {
  }

  /** The parts of an issuance payload whose active properties and encodings are known. */
  lemma IssuePartsFrom(b: IssueBuilder, enc: Encoder, active: seq<string>, args: seq<string>, props: seq<string>)
    requires ActiveTokenProperties(b) == active
    requires EncodeAll(enc, TokenArgs(b.token)) == args
    requires EncodeAll(enc, PropertyArgs(active)) == props
    ensures PayloadParts(Issue(b), enc) == [b.issuanceEndpoint] + args + props
  {
    IssuePartsWith(b, enc, active);
  }

  lemma EncodedPauseUpgrade(enc: Encoder)
    requires PinnedByTests(enc)
    ensures EncodeAll(enc, PropertyArgs(["canPause", "canUpgrade"]))
            == ["63616e5061757365", "74727565", "63616e55706772616465", "74727565"]
  {
    PropertyArgsOfTwo("canPause", "canUpgrade");
  }

  lemma EncodedUpgradeTransfer(enc: Encoder)
    requires PinnedByTests(enc)
    ensures EncodeAll(enc, PropertyArgs(["canUpgrade", TransferNftCreateRole]))
            == ["63616e55706772616465", "74727565", "63616e5472616e736665724e4654437265617465526f6c65", "74727565"]
  {
    PropertyArgsOfTwo("canUpgrade", TransferNftCreateRole);
  }

  lemma EncodedBurnUpgradeTransfer(enc: Encoder)
    requires PinnedByTests(enc)
    ensures EncodeAll(enc, PropertyArgs(["canBurn", "canUpgrade", TransferNftCreateRole]))
            == ["63616e4275726e", "74727565", "63616e55706772616465", "74727565",
                "63616e5472616e736665724e4654437265617465526f6c65", "74727565"]
  {
    PropertyArgsOfThree("canBurn", "canUpgrade", TransferNftCreateRole);
  }

  lemma EncodedFungibleArgs(enc: Encoder)
    requires PinnedByTests(enc)
    ensures EncodeAll(enc, [Str("MyToken"), Str("MTK"), Int(1000000), Int(3)])
            == ["4d79546f6b656e", "4d544b", "0f4240", "03"]
  {
  }

  /** The repository's fungible issuance test: endpoint, the four encoded
      arguments, then each active property with "true". */
  lemma FungibleIssueTest(config: Config, enc: Encoder)
    requires PinnedByTests(enc)
    ensures PayloadParts(FungibleTokenIssue(config, Issuer, "MyToken", "MTK", 1000000, 3,
              Flags(canPause := true, canUpgrade := true)), enc)
            == ["issue"]
             + ["4d79546f6b656e", "4d544b", "0f4240", "03"]
             + ["63616e5061757365", "74727565", "63616e55706772616465", "74727565"]
  {
    var B := FungibleTokenIssue(config, Issuer, "MyToken", "MTK", 1000000, 3, Flags(canPause := true, canUpgrade := true));
    ActiveOfPauseUpgrade();
    EncodedPauseUpgrade(enc);
    EncodedFungibleArgs(enc);
    IssuePartsFrom(B.issue, enc, ["canPause", "canUpgrade"], ["4d79546f6b656e", "4d544b", "0f4240", "03"],
      ["63616e5061757365", "74727565", "63616e55706772616465", "74727565"]);
  }

  lemma NonFungibleIssueTest(config: Config, enc: Encoder)
    requires PinnedByTests(enc)
    ensures PayloadParts(NonFungibleTokenIssue(config, Issuer, "MyToken", "MTK", Flags(canUpgrade := true), true), enc)
            == ["issueNonFungible"]
             + ["4d79546f6b656e", "4d544b"]
             + ["63616e55706772616465", "74727565", "63616e5472616e736665724e4654437265617465526f6c65", "74727565"]
  {
    var B := NonFungibleTokenIssue(config, Issuer, "MyToken", "MTK", Flags(canUpgrade := true), true);
    ActiveOfUpgradeTransfer();
    EncodedUpgradeTransfer(enc);
    IssuePartsFrom(B.issue, enc, ["canUpgrade", TransferNftCreateRole], ["4d79546f6b656e", "4d544b"],
      ["63616e55706772616465", "74727565", "63616e5472616e736665724e4654437265617465526f6c65", "74727565"]);
  }

  lemma SemiFungibleIssueTest(config: Config, enc: Encoder)
    requires PinnedByTests(enc)
    ensures PayloadParts(SemiFungibleTokenIssue(config, Issuer, "MyToken", "MTK",
              Flags(canBurn := true, canUpgrade := true), true), enc)
            == ["issueSemiFungible"]
             + ["4d79546f6b656e", "4d544b"]
             + ["63616e4275726e", "74727565", "63616e55706772616465", "74727565",
                "63616e5472616e736665724e4654437265617465526f6c65", "74727565"]
  {
    var B := SemiFungibleTokenIssue(config, Issuer, "MyToken", "MTK", Flags(canBurn := true, canUpgrade := true), true);
    ActiveOfBurnUpgradeTransfer();
    EncodedBurnUpgradeTransfer(enc);
    IssuePartsFrom(B.issue, enc, ["canBurn", "canUpgrade", TransferNftCreateRole], ["4d79546f6b656e", "4d544b"],
      ["63616e4275726e", "74727565", "63616e55706772616465", "74727565",
       "63616e5472616e736665724e4654437265617465526f6c65", "74727565"]);
  }

  lemma MetaFungibleIssueTest(config: Config, enc: Encoder)
    requires PinnedByTests(enc)
    ensures PayloadParts(MetaFungibleTokenIssue(config, Issuer, "MyToken", "MTK", 3,
              Flags(canBurn := true, canUpgrade := true), true), enc)
            == ["registerMetaESDT"]
             + ["4d79546f6b656e", "4d544b", "03"]
             + ["63616e4275726e", "74727565", "63616e55706772616465", "74727565",
                "63616e5472616e736665724e4654437265617465526f6c65", "74727565"]
  {
    var B := MetaFungibleTokenIssue(config, Issuer, "MyToken", "MTK", 3, Flags(canBurn := true, canUpgrade := true), true);
    ActiveOfBurnUpgradeTransfer();
    EncodedBurnUpgradeTransfer(enc);
    IssuePartsFrom(B.issue, enc, ["canBurn", "canUpgrade", TransferNftCreateRole], ["4d79546f6b656e", "4d544b", "03"],
      ["63616e4275726e", "74727565", "63616e55706772616465", "74727565",
       "63616e5472616e736665724e4654437265617465526f6c65", "74727565"]);
  }
}
