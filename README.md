# Licensing registry on a cw721 token ledger — a verified model

This project models the storage state machine of the `licium-cw721` contract.
Each token stands for a media asset identified by its ISCC code, and anyone
may buy a license for a token by paying the price in the token's licensing
terms.

The model covers:

- the store and its tables:
  - `tokens` (token records) and the token counter, from cw721-base;
  - `ISCC_DATA`, `ISCC`, `LICENSING` and `LICENSE`, this contract's tables;
  - `OPERATORS`, which the queries only read.
- the two commands the contract handles itself, mint and license purchase,
  written as imperative methods of a `Store` class. Each also has a pure step
  function that keeps the order of the writes.
- the dispatch of the eight commands.
- the read-only queries, including cursor pagination over ascending keys.

Files, one module each:

- `host.dfy` (`Host`): values the chain host supplies. These are coins,
  blocks, the sender and funds of a command, and the response.
- `cw721.dfy` (`Cw721`): the token record, approvals and their expiry, the
  errors and the query responses.
- `state.dfy` (`State`): the `IsccData`, `Licensing` and `License` records,
  and `Tables`, a read-only view of all tables. This view plays the part of
  `Deps` in the source.
- `msg.dfy` (`Msg`): `MintMsg`, `ExecuteMsg` and `QueryMsg` as closed datatypes.
- `paging.dfy` (`Paging`): the key order, the ascending range scan, and the
  page limit `min(limit or 10, 30)`.
- `contract.dfy` (`Contract`): the `Store` class with `ExecuteMint`,
  `ExecuteLicensing` and `Execute`. It also holds the step functions
  `MintSteps` and `LicenseSteps` and the query functions.
- `proofs.dfy` (`ContractProofs`): lemmas about the commands, the
  consistency of the tables over any run of commands, and the queries. In
  a run, a delegated command writes owners, approvals and operators
  (`Delegate`).

Failure semantics. The host rolls back every write of a failed command. A
step function returns `Staged(writes, result)`: the tables as the handler
left them where it stopped, and the outcome. `Commit` keeps the writes only
on success. `Store.ExecuteMint` writes the fields one after another. When
the ISCC claim fails, it restores a saved copy of the fields. Its ghost
`staged` result shows the writes made before that rollback.

Where the source files disagree, the model follows the logic of
`src/contract.rs`:

- `ExecuteMsg::License` is declared without a price (src/msg.rs:76-78), but
  the dispatch destructures one (src/contract.rs:59-62). The model's
  `License` command carries `price: Coin`.
- `Licensing.url` (src/state.rs:19) is never set by the mint handler. The
  model fills it from the message's `license_url`.
- `MintMsg.description` is declared as a string (src/msg.rs:27). The
  handler calls `unwrap_or_default` on it (src/contract.rs:100). The model
  makes it optional and stores an absent one as empty.
- `QueryMsg::GetByIsccCode` is declared (src/msg.rs:144), but the query
  dispatch has no arm for it (src/contract.rs:191-247). The model answers it
  with the error `NoHandler`. No resolve query is modelled.

The model keeps these behaviours of the code as written, even where a
reader might expect otherwise:

- The token's owner is the command's sender. The message's `owner` field
  only appears in an event attribute.
- `ISCC[code]` holds the code itself, not the token id, although the
  table's doc comment says token id (src/state.rs:34-35).
- `ISCC_DATA` is written before the ISCC code's uniqueness is checked.
- The transfer to the token owner is built and then dropped. The response
  carries no message, so no funds are forwarded.
- The stored license price is the `price` the caller names, not the coin
  actually paid.
- Sending no funds makes the handler index an empty list, which aborts the
  command (`Panic`). It does not fail with `Unauthorized`.
- Mint checks nothing about who may mint, although the doc comment at
  src/msg.rs:40 says only the minter may.

## Model

| member | source | states |
|---|---|---|
| `Paging.EffectiveLimit` | src/contract.rs:304 | the page size is the requested limit, 10 when none is given, and never more than 30 |
| `Paging.Ascending` | src/contract.rs:311 | an ascending range scan yields every key of the table exactly once, each key smaller than every later one |
| `Paging.Page` | src/contract.rs:378-386 | a page holds at most the effective limit of keys, all of them table keys strictly after the cursor, in ascending order |
| `Paging.PageSmallest` | src/contract.rs:356-366 | a page holds exactly the smallest keys after the cursor: a key after the cursor that is left out lies beyond every key of a full page |
| `Paging.ConsecutivePages` | src/contract.rs:378-386 | using the last key of a full page as the next cursor continues the scan with no gap and no overlap |
| `Paging.AscendingUnique` | src/contract.rs:311 | any strictly ascending listing of a key set is the ascending scan of that set |
| `Contract.Store.ExecuteMint` | src/contract.rs:91-150 | mint writes the token, the counter, the ISCC data, the ISCC claim and the terms in that order; on failure the store is as before; the ghost `staged` result shows the writes made before the failure |
| `Contract.Store.ExecuteLicensing` | src/contract.rs:152-187 | license purchase makes all its checks, then performs its one write; the new store is the committed purchase |
| `Contract.Store.Execute` | src/contract.rs:51-89 | the dispatch runs mint or license purchase and leaves the other six commands to the cw721-base handlers |
| `Contract.Store.constructor` | src/contract.rs:35-48 | instantiation saves name and symbol with all tables empty |
| `Contract.QueryNftInfo` | src/contract.rs:254-261 | fails with NotFound exactly when the token does not exist |
| `Contract.HumanizeApprovals` | src/contract.rs:326-336 | keeps exactly the approvals that are unexpired or included; with `include_expired` it keeps all of them unchanged; without it, the kept approvals are in stored order with every copy, as `KeepLiveAppend` and `KeepLiveOne` state of the filter it applies |
| `Contract.KeepLiveAppend` | src/contract.rs:331-335 | the expiry filter works approval by approval: filtering a concatenation is concatenating the filtered parts, so stored order and copies are kept |
| `Contract.KeepLiveOne` | src/contract.rs:333 | one approval is kept exactly when it is unexpired or `include_expired` is set |
| `Contract.QueryOwnerOf` | src/contract.rs:263-274 | fails with NotFound exactly when the token does not exist; otherwise returns the token's owner and exactly those of its approvals that are unexpired or included (in stored order, through `HumanizeApprovals`), all of them unchanged with `include_expired` |
| `Contract.QueryAllNftInfo` | src/contract.rs:276-294 | fails exactly when the token does not exist; otherwise it joins the OwnerOf and NftInfo answers |
| `Contract.LiveOperators` | src/contract.rs:312 | the expiry filter keeps exactly the unexpired (or included) operators and keeps their ascending order |
| `Contract.QueryAllApprovals` | src/contract.rs:296-317 | at most the effective limit of the owner's operators, each strictly after the cursor, in ascending order, none expired unless included |
| `Contract.QueryTokens` | src/contract.rs:350-371 | at most the effective limit of ids, each a token the owner holds and strictly after the cursor, in ascending order |
| `Contract.QueryAllTokens` | src/contract.rs:373-388 | at most the effective limit of token ids, each strictly after the cursor, in ascending order |
| `Contract.MintSteps` | src/contract.rs:91-140 | a mint, successful or not, never writes the license, operator or contract-info tables |
| `Contract.LicenseSteps` | src/contract.rs:152-180 | a purchase writes the license table and nothing else; a success needs terms, the token and at least one coin, and adds exactly the key (sender, token) |
| `Contract.Query` | src/contract.rs:189-248 | a query fails only with NotFound, exactly for a token lookup of a missing token, or with NoHandler, exactly for the ISCC resolve query that has no arm |
| `ContractProofs.MintTakenTokenId` | src/contract.rs:105-112 | minting a taken token id fails with Claimed before any table is written |
| `ContractProofs.MintSucceedsIff` | src/contract.rs:105-133 | mint succeeds exactly when neither the token id nor the ISCC code is taken; otherwise it fails with Claimed |
| `ContractProofs.MintSuccess` | src/contract.rs:98-140 | a successful mint stores the token owned by the sender with no approvals, raises the counter by one, and saves the ISCC data, the claim holding the code itself, and the terms; license and operator tables are unchanged |
| `ContractProofs.MintTakenIsccCode` | src/contract.rs:117-133 | when the ISCC code is taken, the token, the counter and the ISCC data are already written when mint fails with Claimed; the claim and the terms are not; the committed store is unchanged |
| `ContractProofs.MintIgnoresOwnerField` | src/contract.rs:98-104 | the message's `owner` field changes nothing about a mint |
| `ContractProofs.MintSameIsccTwice` | src/contract.rs:126-133 | a second mint of the same ISCC code fails with Claimed, changes nothing, and the code's ISCC data stays the first mint's |
| `ContractProofs.MintSameTokenTwice` | src/contract.rs:105-112 | a second mint of the same token id fails with Claimed and leaves no ISCC data for its own code |
| `ContractProofs.LicenseWithoutTerms` | src/contract.rs:159 | a purchase for a token without terms fails with NotFound and writes nothing |
| `ContractProofs.LicenseWithoutFunds` | src/contract.rs:163 | a purchase with no funds aborts and writes nothing |
| `ContractProofs.LicensePaymentCheck` | src/contract.rs:163-165 | a purchase fails with Unauthorized exactly when the first coin's denomination differs or its amount is below the price; an equal or larger amount succeeds |
| `ContractProofs.LicenseFailureWritesNothing` | src/contract.rs:158-168 | every failed purchase fails before any write |
| `ContractProofs.LicenseSuccess` | src/contract.rs:167-182 | a successful purchase upserts exactly `LICENSE[(sender, token)] = {token, sender, price}`, changes no other table and emits no transfer |
| `ContractProofs.RepeatPurchaseOverwrites` | src/state.rs:40-41 | a repeat purchase by the same licensee of the same token overwrites the record and adds no key |
| `ContractProofs.DispatchHandlesTwo` | src/contract.rs:57-88 | only Mint and License are handled here; this contract's own code writes nothing for the six delegated commands, and a failed command leaves the tables unchanged |
| `ContractProofs.InstantiatedConsistent` | src/contract.rs:35-48 | freshly instantiated tables are consistent |
| `ContractProofs.FreshTokenKeepsInjective` | src/contract.rs:118-123 | an ISCC data record for a fresh token keeps distinct codes naming distinct tokens |
| `ContractProofs.MintPreservesConsistent` | src/contract.rs:105-140 | a mint keeps the tables consistent: counter equals token count, terms keyed by token, each ISCC data record under its own code naming a live token, every token named by an ISCC data record, claims holding their code, codes naming distinct tokens |
| `ContractProofs.IndexedAfterMint` | src/contract.rs:105-123 | after a mint with a fresh ISCC code, every token, the new one included, is named by an ISCC data record |
| `ContractProofs.LicensePreservesConsistent` | src/contract.rs:174-180 | a purchase keeps the tables consistent; each license sits under its own (licensee, token) key |
| `ContractProofs.ApplyPreservesConsistent` | src/contract.rs:57-88 | every command keeps the tables consistent, as far as this contract's own code writes them |
| `ContractProofs.Delegate` | src/contract.rs:63-87 | a delegated command keeps the set of tokens and their name, description and image, and changes nothing but owners, approvals and operators |
| `ContractProofs.DelegatePreservesConsistent` | src/contract.rs:63-87 | the writes of a delegated command keep the tables consistent |
| `ContractProofs.StepPreservesConsistent` | src/contract.rs:57-88 | every step of a run, handled here or delegated, keeps the tables consistent |
| `ContractProofs.RunPreservesConsistent` | src/state.rs:9-13 | after any run of commands, delegated ones included, the tables are consistent: ISCC codes and tokens correspond one to one, and every ISCC data record names a token present in `tokens` and in `LICENSING` |
| `ContractProofs.ConsistentPurchase` | src/contract.rs:159-168 | in consistent tables, a purchase with funds for a token with terms succeeds exactly when the first coin pays the price |
| `ContractProofs.RunCountsMints` | src/contract.rs:115 | the counter rises by exactly the number of successful mints in a run |
| `ContractProofs.NumTokensCountsMints` | src/msg.rs:102 | from instantiation, NumTokens answers the number of successful mints, which equals the number of tokens |
| `ContractProofs.RunKeepsContractInfo` | src/contract.rs:46 | no command ever writes the contract's name and symbol |
| `ContractProofs.ContractInfoAfterRun` | src/contract.rs:250-252 | after any run from instantiation, ContractInfo answers the name and symbol saved at instantiation |
| `ContractProofs.MintThenQuery` | src/contract.rs:254-274 | after a successful mint, OwnerOf gives the sender with no approvals and NftInfo gives the message's name, description and image |
| `ContractProofs.IncludeExpiredDefault` | src/contract.rs:206 | an unset `include_expired` answers the same as false for OwnerOf, AllNftInfo and ApprovedForAll |
| `ContractProofs.OwnerOfMissing` | src/msg.rs:84 | OwnerOf for a token that does not exist is an error |
| `ContractProofs.ResolveUnhandled` | src/msg.rs:142-146 | the ISCC resolve query is declared but answered with an error |
| `ContractProofs.TokensOfStranger` | src/msg.rs:126 | Tokens for an owner with no tokens is empty |
| `ContractProofs.TokensSmallest` | src/contract.rs:356-366 | Tokens returns the owner's smallest token ids after the cursor |
| `ContractProofs.AllTokensSmallest` | src/msg.rs:135 | AllTokens returns the smallest token ids after the cursor |
| `ContractProofs.ApprovalsSmallest` | src/contract.rs:312-313 | ApprovedForAll drops expired operators before cutting the page: a live operator after the cursor that is left out lies beyond a full page |
| `ContractProofs.EndToEnd` | src/contract.rs:91-187 | a mint at 1000uatom, a purchase paying 1000uatom that records the license, and a second purchase paying 500uatom that fails with Unauthorized and changes nothing |

## Left out

- Instantiation: `set_contract_version` belongs to another crate. Only the
  save of the contract's name and symbol is modelled.
- Serialization (`to_binary`, serde, JSON schema) and `examples/schema.rs`,
  which only writes schema files to disk.
- Address validation (`addr_validate`, `maybe_addr`) is a host call.
  Addresses are taken as valid strings. `query_all_tokens` also passes its
  cursor, a token id, through `maybe_addr` (src/contract.rs:379), so a
  cursor that is not a valid address makes the AllTokens query fail. The
  model accepts every cursor: `Contract.QueryAllTokens`,
  `ContractProofs.AllTokensSmallest` and `Paging.ConsecutivePages` hold for
  AllTokens only for cursors that pass that validation.
- UTF-8 decoding of storage keys. Keys are strings, and the key order
  compares characters by code point. This is the byte order of their UTF-8
  encoding.
- Expiration: the `AtHeight`/`AtTime`/`Never` rule of the cw0 crate is
  restated, not taken from this source.
- Event attributes of responses. They are strings for indexers, not state.
- The storage namespace shared by `LICENSING` and `LICENSE`, and the
  internals of the owner index. Tables are separate maps, and the owner
  index is a filter over `tokens` by owner.
- Integer widths: the limit (`u32`), the token counter (`u64`) and coin
  amounts (`Uint128`) are unbounded naturals. Overflow of the counter is not
  modelled.
- Contract.Store.Execute: Approve, Revoke, ApproveAll, RevokeAll,
  TransferNft and SendNft run in the cw721-base crate. `Execute` marks them
  as delegated and treats them as writing nothing: its contract says the
  store is unchanged, although those handlers rewrite owners, approvals and
  operators. Runs (`ContractProofs.Step`) give them those writes through
  `ContractProofs.Delegate` instead.
- ContractProofs.ApplyPreservesConsistent: covers only what this contract's
  own code writes, so it treats the six delegated commands as writing
  nothing. Runs use `Step`, which gives them their writes.
- ContractProofs.RunPreservesConsistent, ContractProofs.RunCountsMints,
  ContractProofs.NumTokensCountsMints, ContractProofs.RunKeepsContractInfo:
  in a run a delegated command may rewrite any existing token's owner and
  approvals and the whole operator table (`Delegate`). The cw721-base rules
  for who may transfer or approve are not modelled, so the lemmas hold for
  any such writes, not only for those the rules permit.
