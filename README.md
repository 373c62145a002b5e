# Name service registry, modelled in Dafny

This project models the core of a CosmWasm smart contract that runs a name
registry. A caller registers a name by paying the purchase price. From then on
the name maps to its owner's canonical address. Only the owner can transfer the
name to another address. Two read-only queries answer a name's current owner
and the stored prices. Nothing here is compiled or executed; the model is
checked by the Dafny verifier only.

Files and modules:

- `types.dfy` (`Types`): the result and error types shared by the contract;
  coins; human and canonical addresses; `Api`, the host's two address
  conversions; `MessageInfo`, the sender and the attached funds. `Message` gives
  the exact text of each `generic_err` failure.
- `validation.dfy` (`Validation`): the bounds `MIN_NAME_LENGTH` (3) and
  `MAX_NAME_LENGTH` (64) as `MinNameLength` and `MaxNameLength`, `invalid_char`
  and `validate_name`, with the UTF-8 byte length that Rust's `str::len`
  measures.
- `coin_helpers.dfy` (`CoinHelpers`): `assert_sent_sufficient_coin`.
- `contract.dfy` (`Contract`): the stored `State` and `NameRecord`, the message
  types, and the class `Store`. `Store` holds the configuration slot and the
  resolver map. Its methods are `init`, `try_register`, `try_transfer`,
  `handle` and the storage writes `SaveConfig`, `Save` and `Update`. Its
  functions are the two queries and the storage reads `LoadConfig` and
  `MayLoad`. Its predicates `PaysPurchasePrice`, `RegisterSucceeds` and
  `TransferSucceeds` state when the payment guard and every check of a handler
  pass. `OwnerSwap` is the closure that `try_transfer` passes to `update`.
- `scenarios.dfy` (`Scenarios`): clients that chain operations:
  - init then query;
  - register or transfer, then resolve;
  - repeat a failed request;
  - a full walkthrough of registration and transfer;
  - the transfer fee quirk (see below).

  Each is proved from the operations' contracts alone.

Behaviour of the code that the model keeps, where a reader might expect otherwise:

- **Length is counted in bytes.** `validate_name` compares `name.len()` with 3
  and 64, and `name.len()` is the UTF-8 byte length. The model does the same
  with `Utf8Len`. So the two-character name "éé" (four bytes) is not
  "too short". It fails on its first character instead
  (`ShortMultiByteNameIsNotTooShort`). A name of 22 three-byte characters is
  "too long" (`WideNameIsTooLong`). An accepted name is always ASCII, so for
  accepted names the byte count equals the character count
  (`ValidNameCharacterCount`).
- **The invalid-character error only gives the character.** It names the
  leftmost offending character and not its position.
- **Transfers are charged the purchase price.** `try_transfer` checks the funds
  against `purchase_price` (src/contract.rs:74). `transfer_price` is stored by
  `init` and returned by the Config query, but no handler reads it. The model
  follows the code. `Scenarios.TransferChargesPurchasePrice` shows the effect
  on a concrete example: a transfer that pays the lower transfer price is
  refused, and a transfer price of `None` does not make transfers free.
- **Transfers do not validate the name.** A transfer of a name that was
  never registered passes the configuration, payment and recipient-address
  checks first. Once those pass, it fails with "Name does not exist" whatever
  the name's characters.
- **The order of checks decides which error is reported.** `try_register`
  converts the sender's address before it asks whether the name is taken. So
  if that conversion fails, the conversion error is reported even when the name
  is taken. `try_transfer` converts the recipient's address before the
  `update`. It converts the sender's address only inside the closure, and only
  once a record exists. The methods' contracts state each error in this order.

## Model

| member | source | states |
|---|---|---|
| `Types.Message` | src/contract.rs:127-141 | the text of each generic failure; an invalid-character text has the offending character at position 20 |
| `Types.MessageInjective` | src/contract.rs:135-137 | distinct failures give distinct texts, so the text identifies the offending character |
| `Validation.Utf8Width` | src/contract.rs:128 | a character takes 1 to 4 bytes, and exactly 1 iff it is ASCII |
| `Validation.Utf8Len` | src/contract.rs:128-130 | the byte length is between the character count and four times it; it equals the character count iff the string is ASCII |
| `Validation.Utf8LenRepeat` | src/contract.rs:128-131 | `n` copies of a character take `n` times its width in bytes |
| `Validation.InvalidChar` | src/contract.rs:119-123 | `invalid_char`: every character it accepts is ASCII; which characters it accepts is stated by `InvalidCharMatchesList` |
| `Validation.InvalidCharMatchesList` | src/contract.rs:119-123 | the range tests of `invalid_char` reject exactly the characters missing from the list `0`-`9`, `a`-`z`, `.`, `-`, `_` written out one by one |
| `Validation.AllowedIsAscii` | src/contract.rs:119-123 | a string of allowed characters (digits, lowercase letters, `.`, `-`, `_`) is ASCII |
| `Validation.FindInvalid` | src/contract.rs:133-136 | finds nothing iff every character is allowed; otherwise gives the leftmost disallowed character |
| `Validation.ValidateName` | src/contract.rs:127-141 | "too short" iff the byte length is below 3 and "too long" iff it is above 64, whatever the characters; succeeds iff the length is in range and every character is allowed; any other failure names the leftmost disallowed character |
| `Validation.ValidNameCharacterCount` | src/contract.rs:125-131 | an accepted name is ASCII and has 3 to 64 characters |
| `Validation.ShortMultiByteNameIsNotTooShort` | src/contract.rs:128-137 | the two-character name "éé" passes the length checks and fails on 'é' |
| `Validation.WideNameIsTooLong` | src/contract.rs:130-131 | 22 three-byte characters are rejected as too long |
| `CoinHelpers.Covers` | src/coin_helpers.rs:8 | the closure given to `any`: a coin of exactly the price pays it; a coin of another denomination never does, whatever its amount |
| `CoinHelpers.AnyCovers` | src/coin_helpers.rs:7-9 | true iff some single coin has the required denomination and at least the required amount |
| `CoinHelpers.AssertSentSufficientCoin` | src/coin_helpers.rs:3-19 | succeeds iff the price is absent, or its amount is 0, or some single coin covers it; the only failure is "Insufficient funds sent" |
| `CoinHelpers.EmptyFundsInsufficient` | src/coin_helpers.rs:7-14 | no funds fail against every positive price |
| `CoinHelpers.NoSumming` | src/coin_helpers.rs:7-9 | if every coin of the denomination is below the price, the funds fail, however many coins there are |
| `CoinHelpers.TwoSmallCoinsFail` | src/coin_helpers.rs:7-15 | two coins of 60 do not pay a price of 100 |
| `CoinHelpers.SufficientMonotone` | src/coin_helpers.rs:7-9 | funds that pass still pass when they are contained, as a multiset, in larger funds |
| `CoinHelpers.SufficientAppend` | src/coin_helpers.rs:7-9 | adding coins before or after passing funds keeps them passing |
| `CoinHelpers.SufficientOrderIrrelevant` | src/coin_helpers.rs:7-9 | reordering the funds does not change the result |
| `Contract.OwnerSwap` | src/contract.rs:78-88 | succeeds iff a record exists and the sender's canonical address is its owner, and then only the owner changes, to the new owner; otherwise "Name does not exist", the sender's conversion failure, or "Sender must be the owner of the address" |
| `Contract.Store.LoadConfig` | src/contract.rs:46 | gives the stored configuration; fails with not-found before `init` |
| `Contract.Store.MayLoad` | src/contract.rs:54 | gives the record iff the name is registered |
| `Contract.Store.SaveConfig` | src/contract.rs:21 | sets the configuration slot and leaves the resolver alone |
| `Contract.Store.Save` | src/contract.rs:60 | writes one resolver entry; every other entry and the configuration are unchanged |
| `Contract.Store.Update` | src/contract.rs:78-88 | returns what the action makes of the current record; writes it iff the action succeeds; writes nothing otherwise |
| `Contract.Store.Init` | src/contract.rs:12-24 | stores both prices exactly as given; the resolver is unchanged |
| `Contract.Store.TryRegister` | src/contract.rs:39-63 | checks in order: name validation, configuration, payment against the purchase price, the sender's address, "Name is already taken"; succeeds iff all pass, and then the only change is name ↦ sender; any failure changes nothing, and an existing owner is never overwritten |
| `Contract.Store.TryTransfer` | src/contract.rs:65-90 | checks in order: configuration, payment against the purchase price, the recipient's address, "Name does not exist", the sender's address, "Sender must be the owner of the address"; succeeds iff all pass, and then the only change is that the name's owner becomes the recipient; any failure changes nothing |
| `Contract.Store.Handle` | src/contract.rs:27-37 | returns what the handler returns: a failed Register request gives `try_register`'s error in its order (validation, configuration, payment, the sender's address, "Name is already taken"), a failed Transfer request gives `try_transfer`'s (configuration, payment, the recipient's address, "Name does not exist", the sender's address, "Sender must be the owner of the address"); a Register request succeeds iff every check of `try_register` passes, and then the only change is name ↦ sender; a Transfer request succeeds iff every check of `try_transfer` passes, and then the only change is name ↦ recipient; for any request: the configuration is unchanged, a failure changes nothing, no name is removed, only the request's name can change, a newly taken name belongs to the sender, and only the current owner can give a name a new owner |
| `Contract.Store.QueryResolver` | src/contract.rs:103-116 | an unregistered name gives no address, not an error; a registered one gives its owner's human address, or the host's conversion failure |
| `Contract.Store.Query` | src/contract.rs:92-101 | Config gives the stored prices unchanged, or not-found before `init`; ResolveRecord gives no address iff the name is unregistered, the owner's human address when it converts, and otherwise the host's conversion failure |
| `Scenarios.InitThenQueryConfig` | src/contract.rs:17-21 | after `init`, the Config query returns both prices as given |
| `Scenarios.RegisterThenResolve` | src/contract.rs:49-62 | after a successful registration, the name resolves to the sender, given that the host's conversions undo each other on that address |
| `Scenarios.TransferThenResolve` | src/contract.rs:76-88 | after a successful transfer, the name resolves to the recipient, given the same condition on the recipient's address |
| `Scenarios.RegistrationWalkthrough` | src/contract.rs:27-90 | with a price of 100: address A registers "alice" paying 100; a second registration of "alice", through `handle`, fails as taken; registering "bob" paying 50 fails as underpaid; a transfer by B, through `handle`, fails as not the owner; A's transfer to C succeeds, and "alice" then resolves to C; an unregistered name resolves to no address |
| `Scenarios.TransferChargesPurchasePrice` | src/contract.rs:73-74 | with a purchase price of 100 and a transfer price of 10, the owner's transfer paying 10 fails with "Insufficient funds sent"; on a second store set up with no transfer price, a transfer paying nothing fails the same way |
| `Scenarios.RepeatFailedRequest` | src/contract.rs:27-37 | a failed request to `handle`, repeated, fails with the same error and leaves storage unchanged |

## Left out

- Encoding: `to_binary`, the serde and JsonSchema derives, and the byte-key
  encoding `name.as_bytes()` are not modelled. The name itself is the resolver
  key, and queries return their value before it is encoded.
- Storage failures: a `save` or `update` that fails at the storage layer is not
  modelled, so every write succeeds. This is also why `init` returns nothing:
  apart from storage failures it always succeeds. A `load` of the
  configuration before `init` is modelled, as `ConfigNotFound`.
- Address conversion: `deps.api.canonical_address` and `human_address` belong
  to the host. They are the parameter `Api`, two arbitrary functions that may
  fail. The model does not know the host's error texts, so a failed conversion
  is reported as `CanonicalizeFailed` or `HumanizeFailed`.
- `Uint128`: amounts are `nat`. The code only compares amounts and never does
  arithmetic on them, so the 128-bit bound changes nothing.
- `Env` is not modelled: its handlers ignore it. Of `MessageInfo` only the
  sender and the sent funds are modelled.
- Transaction rollback by the host and reentrancy are not modelled. The
  handlers are sequential, and they already write nothing on any error path.
- src/state.rs wraps `cosmwasm_storage` singletons and buckets. Those wrappers
  are modelled only through the `Store` members that the handlers use. Its two
  structs are `State` and `NameRecord`.
- src/msg.rs is not part of this model. The message and response types are
  written from how src/contract.rs uses them.
- The commented-out tests at the end of src/contract.rs are not modelled. They
  belong to a counter contract.
