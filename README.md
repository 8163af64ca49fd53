# Music ownable contract — a Dafny model

This project models the CosmWasm contract of the "music ownable" template
(`templates/music-ownable/src/contract.rs`). The contract is a small state machine over a few
storage items:

- `STATE`: name, description, owner, a `locked` flag and the ownable type;
- `OWNABLE_INFO`: the owner and issuer addresses derived from chain addresses;
- `LOCKED`: a second lock flag, used only by the external-event path;
- `NFT_ITEM`: the NFT the ownable is bound to;
- `NETWORK_ID`: the network byte used in address derivation.

`PACKAGE_CID` is modelled as well.

Entry points:

- `instantiate` fills storage.
- `execute` handles `Transfer` and `Lock`, guarded by the owner stored in `STATE`.
- `register_external_event` accepts only "lock" events. It runs the checks of
  `try_register_lock` and then `try_release`, which hands `OWNABLE_INFO` to the event's owner and
  clears `LOCKED`.
- The queries `query_info`, `query_locked` and `query_widget_state` read `STATE`.

Layout:

- `wrappers.dfy` holds `Option` and `Result`.
- `cosmwasm.dfy` holds `Addr`, `u8`, `StdError` and `MessageInfo`.
- `ownable_std.dfy` holds the ownable_std types and the foreign address derivations.
- `msg.dfy` holds the messages and `state_items.dfy` the storage items (`msg.rs`, `state.rs`).
- `text.dfy` scans strings and `caip2.dfy` reads CAIP-2 namespaces.
- `contract.dfy` (module `MusicOwnable`) has one pure step function per entry point. Each says
  what the entry point writes and what it returns, on a `Storage` snapshot. The same module
  has the class `Contract`, whose fields are the storage items. Its methods load, change and save
  them the way the contract does, and each method's postcondition ties it to its step function.
- `properties.dfy` proves the properties of the step functions.

The two lock flags are kept apart, as in the contract. `execute` reads and writes
`STATE.locked`. The release path reads and writes `LOCKED`. Nothing ever saves `LOCKED` as true,
so from every storage reachable from an empty one, an external event never succeeds. A lock
event that passes every check always ends in `LockError("Not locked")`
(`ContractProperties.ReleaseAlwaysNotLocked`).

`query_widget_state` inserts the name and description into a JSON text without escaping. The
model reads that text back with `ParseWidget`. It is not a JSON reader: each field ends at its
first double quote, and no escape sequence is decoded. This reader gets a name and description
back exactly when neither holds a double quote (`WidgetRoundTrip`). Two different states can
give the same widget text (`WidgetStateAmbiguous`).

## Model

| member | source | states |
|---|---|---|
| `Text.TakeUntil` | templates/music-ownable/src/contract.rs:188-189 | the first field of `split(c)`: the longest prefix without `c`, followed in the input by `c` or by the end |
| `Caip2.Namespace` | templates/music-ownable/src/contract.rs:188-189 | the namespace of a chain id is a colon-free prefix of it that ends at the first `:` or at the end |
| `Caip2.NamespaceOfChainId` | templates/music-ownable/src/contract.rs:188-192 | the namespace of `ns:reference` is `ns` for every reference, even one that holds `:` |
| `Caip2.NamespaceIs` | templates/music-ownable/src/contract.rs:188-189 | a string is the namespace if and only if it is the colon-free prefix that ends at the first `:` or at the end |
| `MusicOwnable.InstantiateStep` | templates/music-ownable/src/contract.rs:15-69 | a failed instantiate (address derivation) writes nothing; a successful one leaves both lock flags false and the same address as owner and issuer |
| `MusicOwnable.ExecuteStep` | templates/music-ownable/src/contract.rs:71-102 | a refused Transfer or Lock writes nothing; an accepted one came from the owner stored in `STATE` |
| `MusicOwnable.LockTarget` | templates/music-ownable/src/contract.rs:149-202 | the lock checks pass only when the NFT and network id are stored and the event's token id, contract and network match the NFT, whose network has the eip155 namespace |
| `MusicOwnable.ReleaseStep` | templates/music-ownable/src/contract.rs:128-147 | release succeeds if and only if `LOCKED` is true and the ownership record is stored; it then clears `LOCKED` and sets only the owner; a failure writes nothing |
| `MusicOwnable.RegisterLockStep` | templates/music-ownable/src/contract.rs:149-207 | a failed lock event writes nothing; a successful one found `LOCKED` true and cleared it |
| `MusicOwnable.RegisterExternalEventStep` | templates/music-ownable/src/contract.rs:104-126 | only a "lock" event can succeed, and only from a true `LOCKED`; a failed event writes nothing |
| `MusicOwnable.QueryInfo` | templates/music-ownable/src/contract.rs:218-225 | fails with `NotFound` exactly when `STATE` was never saved; otherwise reports its name, description and type |
| `MusicOwnable.QueryLocked` | templates/music-ownable/src/contract.rs:227-230 | fails with `NotFound` exactly when `STATE` was never saved; otherwise answers `STATE.locked` |
| `MusicOwnable.QueryWidgetState` | templates/music-ownable/src/contract.rs:243-251 | fails with `NotFound` exactly when `STATE` was never saved; otherwise the text starts with the stored name and always ends with type "music", whatever the stored type |
| `MusicOwnable.Contract.constructor` | templates/music-ownable/src/state.rs:17-25 | a new contract holds no storage item |
| `MusicOwnable.Contract.Instantiate` | templates/music-ownable/src/contract.rs:15-69 | storage and result after instantiate are those of `InstantiateStep`; nothing is written when address derivation fails |
| `MusicOwnable.Contract.Execute` | templates/music-ownable/src/contract.rs:71-102 | storage and result after Transfer or Lock are those of `ExecuteStep` |
| `MusicOwnable.Contract.RegisterExternalEvent` | templates/music-ownable/src/contract.rs:104-126 | storage and result are those of `RegisterExternalEventStep`: "lock" goes to the lock path, other types are rejected |
| `MusicOwnable.Contract.TryRelease` | templates/music-ownable/src/contract.rs:128-147 | storage and result are those of `ReleaseStep` |
| `MusicOwnable.Contract.TryRegisterLock` | templates/music-ownable/src/contract.rs:149-207 | storage and result are those of `RegisterLockStep`: the checks of `LockTarget`, then the release |
| `ContractProperties.ExecuteByNonOwner` | templates/music-ownable/src/contract.rs:78-96 | any execute message from someone other than `STATE.owner` gives Unauthorized and writes nothing, even on a locked ownable, because the owner check comes first |
| `ContractProperties.TransferByOwner` | templates/music-ownable/src/contract.rs:78-91 | a Transfer by the owner gives Locked on a locked ownable and writes nothing; otherwise only `STATE.owner` changes, to the recipient |
| `ContractProperties.LockByOwner` | templates/music-ownable/src/contract.rs:92-100 | a Lock by the owner succeeds, sets `STATE.locked` and keeps the owner and every other item |
| `ContractProperties.LockIdempotent` | templates/music-ownable/src/contract.rs:92-100 | a second Lock by the same sender also succeeds and changes nothing |
| `ContractProperties.ExecuteWritesOnlyState` | templates/music-ownable/src/contract.rs:71-102 | execute never writes an item other than `STATE` |
| `ContractProperties.InstantiateEffects` | templates/music-ownable/src/contract.rs:23-63 | after instantiate, owner and issuer are both the derived address, both lock flags are false, `STATE.owner` is the raw sender and the NFT is written only when the message has one; a failed derivation writes nothing |
| `ContractProperties.OtherEventsRejected` | templates/music-ownable/src/contract.rs:113-123 | an event type other than "lock" gives MatchEventError with that type and writes nothing |
| `ContractProperties.EventWritesOnlyOwnershipAndLockedFlag` | templates/music-ownable/src/contract.rs:104-207 | the external-event path writes nothing but `OWNABLE_INFO` and `LOCKED`, and never `STATE` |
| `ContractProperties.LockCheckOrder` | templates/music-ownable/src/contract.rs:154-206 | the lock checks run in their fixed order (arguments, NFT id, contract, network present, network equal, eip155 namespace, owner address) and the first that fails decides the error; after them, a failing sender derivation, then owner derivation, then a missing `NETWORK_ID`, then a failing LTO derivation each give their own `Std` error |
| `ContractProperties.LockTargetFound` | templates/music-ownable/src/contract.rs:188-203 | a lock event reaches the release if and only if every check passes, the network id is stored and the owner's address derives; the target is that derived address |
| `ContractProperties.ReleaseEffects` | templates/music-ownable/src/contract.rs:128-146 | release when `LOCKED` is false gives "Not locked" and writes nothing; otherwise only `OWNABLE_INFO.owner` (to the target) and `LOCKED` (to false) change, and `STATE` is kept |
| `ContractProperties.LockedFlagNeverSetStep` | templates/music-ownable/src/contract.rs:128-140 | no entry point sets `LOCKED` to true, and `LOCKED` is present whenever `NETWORK_ID` is |
| `ContractProperties.LockedFlagNeverSetRun` | templates/music-ownable/src/contract.rs:45-51 | the same holds after any sequence of entry points |
| `ContractProperties.ReleaseAlwaysNotLocked` | templates/music-ownable/src/contract.rs:128-132 | from any storage reachable from an empty one, an external event fails and writes nothing; a lock event that passes all checks fails with LockError "Not locked" |
| `ContractProperties.LockIsPermanent` | templates/music-ownable/src/contract.rs:83-99 | once `STATE.locked` is true, no execute message or external event changes `STATE` again |
| `ContractProperties.TransferFailsAfterLock` | templates/music-ownable/src/contract.rs:78-99 | after a successful Lock every later Transfer fails: with Locked from the owner who locked, with Unauthorized from anyone else |
| `ContractProperties.LockThenRelease` | templates/music-ownable/src/contract.rs:92-140 | on the contract object, after instantiate and a Lock, `query_locked` answers true and an external event still fails |
| `ContractProperties.QueryLockedIgnoresLockedItem` | templates/music-ownable/src/contract.rs:227-230 | `query_locked` answers the same whatever the `LOCKED` item holds |
| `ContractProperties.LockFlagsUnlinked` | templates/music-ownable/src/contract.rs:227-230 | after a successful Lock `query_locked` answers true while `LOCKED` keeps its previous value |
| `ContractProperties.ExecuteKeepsInfo` | templates/music-ownable/src/contract.rs:218-225 | Transfer and Lock never change the answer of `query_info` |
| `ContractProperties.WidgetRoundTrip` | templates/music-ownable/src/contract.rs:243-251 | the quote-delimited reader (no escape decoding) reads a quote-free name and description back exactly from the widget state text |
| `ContractProperties.ParseWidgetSound` | templates/music-ownable/src/contract.rs:243-251 | every text the quote-delimited reader accepts is the widget state of the quote-free fields it returns |
| `ContractProperties.WidgetStateAmbiguous` | templates/music-ownable/src/contract.rs:246-249 | without escaping, two different name and description pairs give the same widget state |
| `ContractProperties.WidgetStateReportsStoredText` | templates/music-ownable/src/contract.rs:243-251 | the quote-delimited reader gets a stored quote-free name and description back out of the widget state |

## Left out

- The CLI that generates this template, with its validation, schema cache, asset processing and archive assembly. None of its sources are part of this model.
- `address_lto` and `address_eip155` come from the ownable_std crate. They are parameters (`AddressCodec`): any partial functions, whose errors the contract passes on as `Std`.
- `set_contract_version`, `CONFIG` and `METADATA` are left out. `METADATA` is a template literal with placeholder text. The `PLACEHOLDER4_*` constants are opaque strings.
- `query` and `query_metadata`: the serialisation of responses (`to_binary`) is not modelled. `query_metadata` builds a `Metadata` the type does not define.
- JSON escaping is not modelled. The widget text is checked only against a reader that ends each field at the first double quote. A backslash, a control character or an escape sequence in the name or description would make the text invalid JSON, or read back differently under JSON rules. The model says nothing about that.
- Response attributes are not modelled. A successful entry point returns `Ok(())`.
- Storage persistence is not modelled: items are fields, and a missing item loads as `NotFound`, named by its storage key.
- `NFT_ITEM.load(...).unwrap()` panics when no NFT was stored. It is modelled as the distinct error `NftNotStored`, not as an abort of the whole call.
- `ContractError::Unauthorized` appears both with and without a reason. It is modelled as `Unauthorized(Option<string>)`.
- The NFT id is a string, so `nft.id.to_string()` is the id itself.
- `OwnableType` keeps only `Music`, the one variant this contract stores.
- The unused `_ownable_id` argument of `register_external_event` is dropped.
- The contract does not import `STATE` or `to_binary`. The model follows the logic that is evidently intended.
- ownable_std's `InfoResponse` is not used. The model uses the `InfoResponse` declared in `msg.rs`.
