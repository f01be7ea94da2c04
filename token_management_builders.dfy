/** Transaction builders for ESDT token management: the four token issuances,
    setting or unsetting special roles, and local minting of a fungible token.

    Each builder is a record whose fields are set once when it is built. Its
    payload is a list of parts: an endpoint name followed by encoded
    arguments; for an issuance the arguments are the token arguments and then
    one (property name, "true") pair per active property flag. */
module TokenManagementBuilders {
  import opened Wrappers
  import opened Payload

  /** Extra gas limits that extend the SDK's default configuration. */
  const DefaultGasLimitEsdtRoles: nat := 60000000
  const DefaultGasLimitFungibleMint: nat := 300000

  /** The configuration values the builders read. */
  datatype Config = Config(
    issueCost: nat,
    gasLimitEsdtIssue: nat,
    esdtContractAddress: Address,
    gasLimitEsdtRoles: nat,
    gasLimitFungibleMint: nat)

  /** The SDK's default configuration extended with the default extra gas limits;
      the SDK's own defaults are parameters. */
  function MyDefaultConfiguration(issueCost: nat, gasLimitEsdtIssue: nat, esdtContractAddress: Address): (c: Config)
    ensures c.gasLimitEsdtRoles == 60000000 && c.gasLimitFungibleMint == 300000
    ensures c.issueCost == issueCost && c.gasLimitEsdtIssue == gasLimitEsdtIssue
    ensures c.esdtContractAddress == esdtContractAddress
  {
    Config(issueCost, gasLimitEsdtIssue, esdtContractAddress, DefaultGasLimitEsdtRoles, DefaultGasLimitFungibleMint)
  }

  /** The optional arguments every builder takes and hands to the SDK's base builder. */
  datatype TxOptions = TxOptions(
    nonce: Option<nat> := None,
    value: Option<nat> := None,
    gasLimit: Option<nat> := None,
    gasPrice: Option<nat> := None)

  /** The transaction fields a builder holds once constructed. */
  datatype TxHeader = TxHeader(
    sender: Address,
    receiver: Address,
    nonce: Option<nat>,
    value: Option<nat>,
    gasLimit: Option<nat>,
    gasPrice: Option<nat>)

  /** The eight property flags shared by every issuance; each defaults to false. */
  datatype Flags = Flags(
    canFreeze: bool := false,
    canWipe: bool := false,
    canPause: bool := false,
    canMint: bool := false,
    canBurn: bool := false,
    canChangeOwner: bool := false,
    canUpgrade: bool := false,
    canAddSpecialRoles: bool := false)

  /** The token an issuance creates, one variant per issuance builder. */
  datatype IssuedToken =
    | Fungible(name: string, ticker: string, initialSupply: int, numDecimals: int, flags: Flags)
    | NonFungible(name: string, ticker: string, flags: Flags, canTransferNftCreateRole: bool)
    | SemiFungible(name: string, ticker: string, flags: Flags, canTransferNftCreateRole: bool)
    | Meta(name: string, ticker: string, numDecimals: int, flags: Flags, canTransferNftCreateRole: bool)

  datatype IssueBuilder = IssueBuilder(
    header: TxHeader,
    gasLimitEsdtIssue: nat,
    issuanceEndpoint: string,
    token: IssuedToken)

  datatype RolesBuilder = RolesBuilder(
    header: TxHeader,
    gasLimitEsdtRoles: nat,
    isSet: bool,
    tokenIdentifier: string,
    target: Address,
    roles: seq<string>)

  datatype MintBuilder = MintBuilder(
    header: TxHeader,
    gasLimitFungibleMint: nat,
    tokenIdentifier: string,
    amountAsInteger: int)

  datatype Builder = Issue(issue: IssueBuilder) | Roles(roles: RolesBuilder) | Mint(mint: MintBuilder)

  /** A property table: property names with their flags, in declaration order. */
  type PropertyTable = seq<(string, bool)>

  const CommonPropertyNames: seq<string> := [
    "canFreeze", "canWipe", "canPause", "canMint",
    "canBurn", "canChangeOwner", "canUpgrade", "canAddSpecialRoles"]

  const TransferNftCreateRole: string := "canTransferNFTCreateRole"

  // ----- Token arguments and property tables -----

  function TokenArgs(t: IssuedToken): seq<Arg>
  {
    match t
    case Fungible(name, ticker, supply, decimals, _) => [Str(name), Str(ticker), Int(supply), Int(decimals)]
    case NonFungible(name, ticker, _, _) => [Str(name), Str(ticker)]
    case SemiFungible(name, ticker, _, _) => [Str(name), Str(ticker)]
    case Meta(name, ticker, decimals, _, _) => [Str(name), Str(ticker), Int(decimals)]
  }

  /** The table of the eight common flags. */
  function CommonTable(f: Flags): PropertyTable
  {
    [("canFreeze", f.canFreeze), ("canWipe", f.canWipe), ("canPause", f.canPause),
     ("canMint", f.canMint), ("canBurn", f.canBurn), ("canChangeOwner", f.canChangeOwner),
     ("canUpgrade", f.canUpgrade), ("canAddSpecialRoles", f.canAddSpecialRoles)]
  }

  function TokenProperties(t: IssuedToken): PropertyTable
  {
    match t
    case Fungible(_, _, _, _, f) => CommonTable(f)
    case NonFungible(_, _, f, c) => CommonTable(f) + [(TransferNftCreateRole, c)]
    case SemiFungible(_, _, f, c) => CommonTable(f) + [(TransferNftCreateRole, c)]
    case Meta(_, _, _, f, c) => CommonTable(f) + [(TransferNftCreateRole, c)]
  }

  function Names(table: PropertyTable): (r: seq<string>)
    ensures |r| == |table|
    ensures forall i :: 0 <= i < |table| ==> r[i] == table[i].0
  {
    if table == [] then [] else [table[0].0] + Names(table[1..])
  }

  /** The names whose flag is set, in table order. */
  function ActiveNames(table: PropertyTable): (r: seq<string>)
    ensures |r| <= |table|
  {
    if table == [] then []
    else if table[0].1 then [table[0].0] + ActiveNames(table[1..])
    else ActiveNames(table[1..])
  }

  /** The flattened (name, "true") pairs of the given property names. */
  function PropertyArgs(names: seq<string>): (r: seq<Arg>)
    ensures |r| == 2 * |names|
  {
    if names == [] then [] else [Str(names[0]), Str("true")] + PropertyArgs(names[1..])
  }

  /** The k-th name sits at position 2k and is immediately followed by "true". */
  lemma {:induction false} PropertyArgsAt(names: seq<string>, k: nat)
    requires k < |names|
    ensures 2 * k + 1 < |PropertyArgs(names)|
    ensures PropertyArgs(names)[2 * k] == Str(names[k])
    ensures PropertyArgs(names)[2 * k + 1] == Str("true")
  {
    if k > 0 {
      PropertyArgsAt(names[1..], k - 1);
      var rest := PropertyArgs(names[1..]);
      assert PropertyArgs(names) == [Str(names[0]), Str("true")] + rest;
      assert 2 * k == 2 * (k - 1) + 2;
    }
  }

  // ----- Issuance -----

  /** What every issuance builder's constructor sets, whatever value it is passed. */
  function TokenIssue(config: Config, issuer: Address, issuanceEndpoint: string, token: IssuedToken, opts: TxOptions): (b: Builder)
    ensures b.Issue? && b.issue.issuanceEndpoint == issuanceEndpoint && b.issue.token == token
    ensures b.issue.header.value == Some(config.issueCost)
    ensures b.issue.header.sender == issuer && b.issue.header.receiver == config.esdtContractAddress
    ensures b.issue.header.nonce == opts.nonce && b.issue.header.gasLimit == opts.gasLimit
    ensures b.issue.header.gasPrice == opts.gasPrice
    ensures b.issue.gasLimitEsdtIssue == config.gasLimitEsdtIssue
  {
    var header := TxHeader(issuer, config.esdtContractAddress, opts.nonce, Some(config.issueCost), opts.gasLimit, opts.gasPrice);
    Issue(IssueBuilder(header, config.gasLimitEsdtIssue, issuanceEndpoint, token))
  }

  function FungibleTokenIssue(config: Config, issuer: Address, tokenName: string, tokenTicker: string,
                              initialSupply: int, numDecimals: int, flags: Flags := Flags(), opts: TxOptions := TxOptions()): (b: Builder)
    ensures b.Issue? && b.issue.issuanceEndpoint == "issue"
    ensures TokenArgs(b.issue.token) == [Str(tokenName), Str(tokenTicker), Int(initialSupply), Int(numDecimals)]
    ensures Names(TokenProperties(b.issue.token)) == CommonPropertyNames
    ensures TokenProperties(b.issue.token) == CommonTable(flags)
    ensures b.issue.header.value == Some(config.issueCost)
    ensures b.issue.header.sender == issuer && b.issue.header.receiver == config.esdtContractAddress
  {
    TokenIssue(config, issuer, "issue", Fungible(tokenName, tokenTicker, initialSupply, numDecimals, flags), opts)
  }

  function NonFungibleTokenIssue(config: Config, issuer: Address, tokenName: string, tokenTicker: string,
                                 flags: Flags := Flags(), canTransferNftCreateRole: bool := false, opts: TxOptions := TxOptions()): (b: Builder)
    ensures b.Issue? && b.issue.issuanceEndpoint == "issueNonFungible"
    ensures TokenArgs(b.issue.token) == [Str(tokenName), Str(tokenTicker)]
    ensures Names(TokenProperties(b.issue.token)) == CommonPropertyNames + [TransferNftCreateRole]
    ensures TokenProperties(b.issue.token) == CommonTable(flags) + [(TransferNftCreateRole, canTransferNftCreateRole)]
    ensures b.issue.header.value == Some(config.issueCost)
    ensures b.issue.header.sender == issuer && b.issue.header.receiver == config.esdtContractAddress
  {
    TokenIssue(config, issuer, "issueNonFungible", NonFungible(tokenName, tokenTicker, flags, canTransferNftCreateRole), opts)
  }

  function SemiFungibleTokenIssue(config: Config, issuer: Address, tokenName: string, tokenTicker: string,
                                  flags: Flags := Flags(), canTransferNftCreateRole: bool := false, opts: TxOptions := TxOptions()): (b: Builder)
    ensures b.Issue? && b.issue.issuanceEndpoint == "issueSemiFungible"
    ensures TokenArgs(b.issue.token) == [Str(tokenName), Str(tokenTicker)]
    ensures Names(TokenProperties(b.issue.token)) == CommonPropertyNames + [TransferNftCreateRole]
    ensures TokenProperties(b.issue.token) == CommonTable(flags) + [(TransferNftCreateRole, canTransferNftCreateRole)]
    ensures b.issue.header.value == Some(config.issueCost)
    ensures b.issue.header.sender == issuer && b.issue.header.receiver == config.esdtContractAddress
  {
    TokenIssue(config, issuer, "issueSemiFungible", SemiFungible(tokenName, tokenTicker, flags, canTransferNftCreateRole), opts)
  }

  function MetaFungibleTokenIssue(config: Config, issuer: Address, tokenName: string, tokenTicker: string,
                                  numDecimals: int, flags: Flags := Flags(), canTransferNftCreateRole: bool := false,
                                  opts: TxOptions := TxOptions()): (b: Builder)
    ensures b.Issue? && b.issue.issuanceEndpoint == "registerMetaESDT"
    ensures TokenArgs(b.issue.token) == [Str(tokenName), Str(tokenTicker), Int(numDecimals)]
    ensures Names(TokenProperties(b.issue.token)) == CommonPropertyNames + [TransferNftCreateRole]
    ensures TokenProperties(b.issue.token) == CommonTable(flags) + [(TransferNftCreateRole, canTransferNftCreateRole)]
    ensures b.issue.header.value == Some(config.issueCost)
    ensures b.issue.header.sender == issuer && b.issue.header.receiver == config.esdtContractAddress
  {
    TokenIssue(config, issuer, "registerMetaESDT", Meta(tokenName, tokenTicker, numDecimals, flags, canTransferNftCreateRole), opts)
  }

  function ActiveTokenProperties(b: IssueBuilder): seq<string>
  {
    ActiveNames(TokenProperties(b.token))
  }

  function IssuePayloadParts(b: IssueBuilder, enc: Encoder): seq<string>
  {
    [b.issuanceEndpoint] + EncodeAll(enc, TokenArgs(b.token)) + EncodeAll(enc, PropertyArgs(ActiveTokenProperties(b)))
  }

  // ----- Special roles -----

  function ManageTokenRoles(config: Config, sender: Address, isSet: bool, tokenIdentifier: string,
                            target: Address, roles: seq<string>, opts: TxOptions := TxOptions()): (b: Builder)
    ensures b.Roles? && b.roles.header.sender == sender && b.roles.header.receiver == config.esdtContractAddress
    ensures b.roles.header.value == opts.value && b.roles.header.nonce == opts.nonce
    ensures b.roles.header.gasLimit == opts.gasLimit && b.roles.header.gasPrice == opts.gasPrice
    ensures b.roles.gasLimitEsdtRoles == config.gasLimitEsdtRoles
    ensures b.roles.isSet == isSet && b.roles.tokenIdentifier == tokenIdentifier
    ensures b.roles.target == target && b.roles.roles == roles
  {
    var header := TxHeader(sender, config.esdtContractAddress, opts.nonce, opts.value, opts.gasLimit, opts.gasPrice);
    Roles(RolesBuilder(header, config.gasLimitEsdtRoles, isSet, tokenIdentifier, target, roles))
  }

  function RoleArgs(roles: seq<string>): (r: seq<Arg>)
    ensures |r| == |roles|
    ensures forall i :: 0 <= i < |roles| ==> r[i] == Str(roles[i])
  {
    seq(|roles|, i requires 0 <= i < |roles| => Str(roles[i]))
  }

  function RolesPayloadParts(b: RolesBuilder, enc: Encoder): seq<string>
  {
    var endpoint := if b.isSet then "setSpecialRole" else "unsetSpecialRole";
    [endpoint, enc(Str(b.tokenIdentifier)), enc(Addr(b.target))] + EncodeAll(enc, RoleArgs(b.roles))
  }

  // ----- Local mint -----

  function FungibleMint(config: Config, sender: Address, tokenIdentifier: string, amountAsInteger: int,
                        opts: TxOptions := TxOptions()): (b: Builder)
    ensures b.Mint? && b.mint.header.sender == sender && b.mint.header.receiver == sender
    ensures b.mint.header.value == opts.value && b.mint.header.nonce == opts.nonce
    ensures b.mint.header.gasLimit == opts.gasLimit && b.mint.header.gasPrice == opts.gasPrice
    ensures b.mint.gasLimitFungibleMint == config.gasLimitFungibleMint
    ensures b.mint.tokenIdentifier == tokenIdentifier && b.mint.amountAsInteger == amountAsInteger
  {
    var header := TxHeader(sender, sender, opts.nonce, opts.value, opts.gasLimit, opts.gasPrice);
    Mint(MintBuilder(header, config.gasLimitFungibleMint, tokenIdentifier, amountAsInteger))
  }

  function MintPayloadParts(b: MintBuilder, enc: Encoder): seq<string>
  {
    ["ESDTLocalMint", enc(Str(b.tokenIdentifier)), enc(Int(b.amountAsInteger))]
  }

  // ----- Dispatch over the builders -----

  function Header(b: Builder): TxHeader
  {
    match b
    case Issue(i) => i.header
    case Roles(r) => r.header
    case Mint(m) => m.header
  }

  /** The gas the execution itself is estimated to need. */
  function EstimateExecutionGas(b: Builder): nat
  {
    match b
    case Issue(i) => i.gasLimitEsdtIssue
    case Roles(r) => r.gasLimitEsdtRoles
    case Mint(m) => m.gasLimitFungibleMint
  }

  function PayloadParts(b: Builder, enc: Encoder): seq<string>
  {
    match b
    case Issue(i) => IssuePayloadParts(i, enc)
    case Roles(r) => RolesPayloadParts(r, enc)
    case Mint(m) => MintPayloadParts(m, enc)
  }

  function BuildPayload(b: Builder, enc: Encoder): string
  {
    Join(PayloadParts(b, enc))
  }
}
