# Token-management builders and transfer comparison of mxops

mxops runs scenes of MultiversX blockchain operations. This project models two
parts of its execution package.

- The token-management transaction builders. There are four ESDT issuances
  (fungible, non-fungible, semi-fungible, meta), the special-role set/unset
  transaction and a fungible local mint. Each builder fixes the sender, the
  receiver and the gas its execution is estimated at. Only the issuance
  builders fix the value, to the issue cost; the role and mint builders pass
  on the value they are given. Each builder also fixes the payload parts: an endpoint name followed by encoded arguments. For an
  issuance the arguments are the token arguments, then one (property name,
  `"true"`) pair per active property flag, in the order of the token's
  property table.
- The transfer records. This covers an ESDT transfer with its default nonce
  and the on-chain and expected transfers with their equality. An expected
  transfer is first evaluated dynamically: every field is passed through the
  value retrieval of the execution utilities and stringified. The
  comparison can raise, and the model returns that as an `Err`.

Modules:

- `Wrappers` (`wrappers.dfy`): `Option` and a failure-compatible `Result`.
- `Payload` (`payload.dfy`): builder arguments and the payload helpers.
  - The SDK's argument encoder `arg_to_string` is a parameter `enc: Arg -> string`.
  - `EncodeAll` plays the SDK's `args_to_strings`.
  - `Join` and `Split` handle the `@`-separated payload data.
  - `PinnedByTests` holds the single-argument encodings that the repository's
    payload tests fix.
- `TokenManagementBuilders` (`token_management_builders.dfy`):
  - one immutable record per builder, with the constructors as functions;
  - the property tables, `ActiveTokenProperties` and the payload parts.
- `TokenManagementProperties` (`token_management_properties.dfy`): lemmas about
  the builders, including the four issuance payload tests of the repository.
- `Msc` (`msc.dfy`):
  - the transfer datatypes;
  - Python's `str()` on ints and strings;
  - `GetDynamicEvaluated`, a loop that fills a dictionary of evaluations,
    proved equal to the function `DynamicEvaluated`;
  - the two `__eq__` methods as functions returning `Result<bool, Error>`.
  - The retrieval function `retrieve_value_from_string` is a parameter
    `retrieve: string -> Result<Scalar, Error>`.

The builders' constructors only assign fields once, and the payload methods are
pure. So the builders are datatypes and functions, not classes.

## Model

| member | source | states |
|---|---|---|
| TokenManagementBuilders.MyDefaultConfiguration | mxops/execution/token_management_builders.py:21-27 | the extended default configuration adds a roles gas limit of 60000000 and a fungible-mint gas limit of 300000, and keeps the SDK's own defaults |
| TokenManagementBuilders.TokenIssue | mxops/execution/token_management_builders.py:44-51 | every issuance builder sends the issue cost as its value, whatever value it was passed; the sender is the issuer and the receiver is the ESDT system contract; nonce, gas limit and gas price pass through; the issuance gas limit comes from the configuration |
| TokenManagementBuilders.FungibleTokenIssue | mxops/execution/token_management_builders.py:109-142 | endpoint `issue`; token arguments name, ticker, initial supply, decimals; the property table is the eight common flags with the values passed in; value is the issue cost, sender the issuer, receiver the ESDT contract |
| TokenManagementBuilders.NonFungibleTokenIssue | mxops/execution/token_management_builders.py:170-201 | endpoint `issueNonFungible`; token arguments name, ticker; the table is the eight common flags with the values passed in, then `canTransferNFTCreateRole` with its value; value is the issue cost, sender the issuer, receiver the ESDT contract |
| TokenManagementBuilders.SemiFungibleTokenIssue | mxops/execution/token_management_builders.py:229-260 | endpoint `issueSemiFungible`; token arguments name, ticker; the table is the eight common flags with the values passed in, then `canTransferNFTCreateRole` with its value; value is the issue cost, sender the issuer, receiver the ESDT contract |
| TokenManagementBuilders.MetaFungibleTokenIssue | mxops/execution/token_management_builders.py:289-322 | endpoint `registerMetaESDT`; token arguments name, ticker, decimals; the table is the eight common flags with the values passed in, then `canTransferNFTCreateRole` with its value; value is the issue cost, sender the issuer, receiver the ESDT contract |
| TokenManagementBuilders.PropertyArgsAt | mxops/execution/token_management_builders.py:74-75 | in the flattened property arguments, the k-th active name sits at position 2k and is immediately followed by `"true"` |
| TokenManagementBuilders.ManageTokenRoles | mxops/execution/token_management_builders.py:347-356 | a role transaction goes from the sender to the ESDT system contract; the value and the other options pass through; the roles gas limit comes from the configuration; the flag, token, target and roles are kept |
| TokenManagementBuilders.FungibleMint | mxops/execution/token_management_builders.py:391-397 | a local mint is sent by the sender to itself; the options pass through; the mint gas limit comes from the configuration |
| TokenManagementProperties.ActiveNamesAppend | mxops/execution/token_management_builders.py:64-71 | selecting active properties commutes with splitting the table, so the selection keeps the table order |
| TokenManagementProperties.ActiveNamesMembership | mxops/execution/token_management_builders.py:64-71 | a name is active if and only if the table lists it with a true flag |
| TokenManagementProperties.InactiveFlagContributesNothing | mxops/execution/token_management_builders.py:71 | a false flag contributes no name: removing it leaves the active properties unchanged |
| TokenManagementProperties.ActiveFlagContributesItsName | mxops/execution/token_management_builders.py:71 | a true flag contributes its name between the names selected before it and those selected after it |
| TokenManagementProperties.ActiveTokenPropertiesByFlag | mxops/execution/token_management_builders.py:64-71 | the active properties are the active common flags in table order, then `canTransferNFTCreateRole` for the non-fungible kinds when it is set |
| TokenManagementProperties.FungibleActiveProperties | mxops/execution/token_management_builders.py:115-142 | for every flag argument, a property is active on the fungible issuance if and only if it is a common flag passed as true |
| TokenManagementProperties.NonFungibleActiveProperties | mxops/execution/token_management_builders.py:174-201 | for every flag argument, a property is active on the non-fungible issuance if and only if it is passed as true, the NFT-create-role transfer included |
| TokenManagementProperties.SemiFungibleActiveProperties | mxops/execution/token_management_builders.py:233-260 | the same for the semi-fungible issuance |
| TokenManagementProperties.MetaFungibleActiveProperties | mxops/execution/token_management_builders.py:294-322 | the same for the meta issuance |
| TokenManagementProperties.DefaultConfigurationGas | mxops/execution/token_management_builders.py:26-27 | with the extended default configuration, a role transaction is estimated at 60000000 gas and a local mint at 300000, and role transactions go to the configured ESDT contract |
| TokenManagementProperties.PropertyTableShape | mxops/execution/token_management_builders.py:190-201 | every table starts with the eight common names in the same order; a fungible table has nothing else; the other kinds append `canTransferNFTCreateRole` last |
| TokenManagementProperties.ActiveOrderFollowsTable | mxops/execution/token_management_builders.py:190-201 | active properties come out in table order: `canUpgrade`, then `canTransferNFTCreateRole` |
| TokenManagementProperties.IssuePayloadLayout | mxops/execution/token_management_builders.py:73-80 | an issuance payload has 1 + arguments + 2·active parts: the endpoint, the encoded token arguments, then each active name's encoding followed by the encoding of `"true"` |
| TokenManagementProperties.RolesPayloadLayout | mxops/execution/token_management_builders.py:361-368 | a role payload has 3 + roles parts; the endpoint is `setSpecialRole` if and only if the flag is set, `unsetSpecialRole` otherwise; then the encoded token identifier, the encoded target and the encoded roles in order |
| TokenManagementProperties.PartsAfterEndpointAreEncoded | mxops/execution/token_management_builders.py:73-80 | every payload part after the endpoint is the encoding of some argument |
| TokenManagementProperties.BuildPayloadSplits | tests/test_token_managment.py:27-34 | when no encoding contains `@`, splitting the payload data at `@` gives back exactly its parts |
| TokenManagementProperties.IssueWiring | mxops/execution/token_management_builders.py:44-54 | an issuance's transaction fields do not depend on the value passed in; its value is the issue cost, it goes from the issuer to the ESDT contract, and its gas estimate is the issuance gas limit |
| TokenManagementProperties.RolesWiring | mxops/execution/token_management_builders.py:347-368 | a role transaction goes to the ESDT contract, its gas estimate is the roles gas limit, and its endpoint follows the set/unset flag |
| TokenManagementProperties.MintWiring | mxops/execution/token_management_builders.py:391-407 | a mint's receiver is its sender, its gas estimate is the mint gas limit, and its payload is `ESDTLocalMint`, the encoded token identifier and the encoded amount |
| TokenManagementProperties.FungibleIssueTest | tests/test_token_managment.py:7-34 | with the pinned encodings, the fungible issuance with `canPause` and `canUpgrade` has the parts the test expects, in that order |
| TokenManagementProperties.NonFungibleIssueTest | tests/test_token_managment.py:37-60 | with the pinned encodings, the non-fungible issuance with `canUpgrade` and the NFT-create-role transfer has the expected parts |
| TokenManagementProperties.SemiFungibleIssueTest | tests/test_token_managment.py:63-88 | with the pinned encodings, the semi-fungible issuance with `canBurn`, `canUpgrade` and the NFT-create-role transfer has the expected parts |
| TokenManagementProperties.MetaFungibleIssueTest | tests/test_token_managment.py:91-118 | with the pinned encodings, the meta issuance with 3 decimals and the same three flags has the expected parts |
| Payload.EncodeAll | mxops/execution/token_management_builders.py:78-79 | the encoded argument list has one entry per argument, each argument encoded at its own position |
| Payload.SplitJoin | tests/test_token_managment.py:27-34 | parts free of `@` are recovered from the `@`-joined payload data |
| Payload.TestVectorsConsistent | tests/test_token_managment.py:27-34 | the single-argument encodings the tests fix do not contradict each other: some encoder satisfies all of them |
| Msc.EsdtTransferDefaultNonce | mxops/execution/msc.py:13-20 | an ESDT transfer built without a nonce has nonce 0 |
| Msc.IntStrRoundTrip | mxops/execution/msc.py:65-66 | `str()` of an int reads back as that int, so distinct int values stringify differently |
| Msc.FirstFailingAttribute | mxops/execution/msc.py:64-66 | when the earlier attributes resolve and one raises, the evaluation raises that attribute's exception |
| Msc.GetDynamicEvaluated | mxops/execution/msc.py:54-67 | the loop over sender, receiver, token and amount returns the transfer `DynamicEvaluated` describes, or the first exception a retrieval raises |
| Msc.DynamicEvaluatedFields | mxops/execution/msc.py:54-67 | the evaluation succeeds if and only if all four retrievals succeed; each field is `str()` of the value retrieved for `str()` of the original field, so the amount is always a string |
| Msc.DynamicEvaluatedReadsOnlyFields | mxops/execution/msc.py:64-66 | the evaluation depends only on what the retrieval returns for the four stringified fields |
| Msc.OnChainEqualsOnChain | mxops/execution/msc.py:36-40 | two on-chain transfers are equal if and only if their sender, receiver, token and amount are |
| Msc.OnChainDelegatesToExpected | mxops/execution/msc.py:34-35 | comparing an on-chain transfer with an expected one gives the result of comparing the expected one with the on-chain one |
| Msc.OtherTypesRaise | mxops/execution/msc.py:41 | comparing with any other type raises `NotImplementedError`, except that an expected transfer whose own evaluation raises propagates that exception first |
| Msc.ExpectedAgainstOnChain | mxops/execution/msc.py:69-84 | against an on-chain transfer only the expected side is evaluated; the evaluated fields are compared with the raw on-chain fields; an evaluation error propagates |
| Msc.ExpectedAgainstExpected | mxops/execution/msc.py:69-84 | two expected transfers are compared by their evaluations; the comparison is symmetric unless both raise; a transfer that evaluates equals itself; the left side's error comes first |
| Msc.MatchingTheSameOnChainTransfer | mxops/execution/msc.py:69-84 | two expected transfers that both match one on-chain transfer match each other |
| Msc.IntAmountComparedAsString | mxops/execution/msc.py:77-84 | an amount that resolves to an int is compared as its decimal string, and a match forces the on-chain amount to read back as that int |

## Left out

- The SDK's `TransactionBuilder` base class is not part of this model:
  - its gas-limit computation from the payload length;
  - chain id and version;
  - how `build_payload` turns the parts into bytes.
  The model keeps the parts and the `@`-joined string only.
- `arg_to_string` / `args_to_strings` of the SDK: the hex encodings of strings, ints and addresses are not modelled. The encoder is a parameter, and only the encodings the repository's tests fix are pinned.
- `retrieve_value_from_string` of the execution utilities is a parameter, and a deterministic, side-effect-free function. In the program it reads the active scenario's mutable data store. ExpectedAgainstExpected and MatchingTheSameOnChainTransfer rely on both evaluations using the same `retrieve`, so they hold only while the data store does not change between the two evaluations. Its results are restricted to ints and strings. Other Python values (bool, list, …) and their `str()` are not modelled.
- Python's `str()` is modelled for ints and strings only.
- Python's `__eq__` raising an exception is modelled as an `Err` result, not as control flow.
- FungibleIssueTest: states the payload parts, not the joined bytes the test asserts. BuildPayloadSplits relates the joined string and the parts. FungibleIssueTest itself does not compute the string literal.
- NonFungibleIssueTest: states the payload parts, not the joined bytes, for the same reason.
- SemiFungibleIssueTest: states the payload parts, not the joined bytes, for the same reason.
- MetaFungibleIssueTest: states the payload parts, not the joined bytes, for the same reason.
- The repository's tests import the builders under the module name `token_managment`. The model follows `token_management_builders.py`.
- The builders are immutable records rather than objects. Their constructors assign every field once, and nothing in the core updates them afterwards.
- Not modelled: the command-line interface, the scene and contract-reading parts of the execution package, the data store, the smart-value engine, and the example smart contracts. All are outside this core.
