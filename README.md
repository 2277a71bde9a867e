# Community creation sagas, modelled in Dafny

This project models the two redux sagas that create a Hivemind community on a
Steem-style chain (`src/app/redux/CommunitySaga.js`). It also models the pure
helpers the sagas use to build operations.

- **First phase, `createCommunityAccount`.** It raises the store's `pending`
  flag and derives the community owner's keys. It builds an `account_create`
  operation with fee `3.000 STEEM`: three single-signer authorities (owner,
  active, posting) and a memo key. If the store says the account already
  exists, it only calls the caller's success callback. Otherwise it puts a
  `broadcastOperation` request that asks for confirmation with
  `Are you sure?`. `pending` is lowered only from the `catch` clause.
- **Second phase, `customOps`.** It raises `pending`, clears
  `operationError` and waits 4000 ms. It then broadcasts one transaction of
  two `custom_json` operations on the `community` channel: `setRole`, which
  makes the account an admin, and `updateProps`, which sets the title, the
  description and `is_nsfw`. The transaction is signed with the owner's
  posting key. On success it reports `CREATE_COMMUNITY_SUCCESS`. On any
  exception it raises `operationError`. Either way it ends by lowering
  `pending`.

Modules:

- `Wrappers`: `Option`.
- `Json`: the subset of `JSON.stringify` the operations use. It covers
  strings, booleans, arrays, and objects in insertion order. Inside strings
  it writes the escapes `JSON.stringify` writes: `\"`, `\\`, `\b`, `\f`,
  `\n`, `\r`, `\t`, and `\u00xx` for the other characters below U+0020.
  A strict parser comes with it, with proofs that writing and reading are
  inverse to each other in both directions.
- `Keys`: `generateAuth` over an uninterpreted, deterministic key derivation,
  and what it means for signing keys to meet an authority.
- `Operations`: `generateHivemindOperation`, the `setRole` / `updateProps`
  batch and what an indexer reads back out of it, and the `account_create`
  operation.
- `Saga`: the sagas as methods of a `CommunitySaga` object.
  - The object holds the store flags the sagas write and an append-only log
    of the effects they issue (`put`, `call(wait)`, `sendAsync`, the success
    callback).
  - `Valid()` ties the flags to a replay of the log.
  - Each saga is proved against a function giving its whole effect sequence.
    Lemmas state the ordering, counting and flag properties of those
    sequences.
  - Whatever the environment decides is an input to the methods: which
    foreign call throws, how the broadcast ends, and the store's
    `communityAccountCreated`.

## Model

| member | source | states |
|---|---|---|
| Keys.GenerateAuth | src/app/redux/CommunitySaga.js:8-17 | the memo role yields the bare public key derived for it, never an authority; every other role yields an authority with threshold 1, no account authorities and exactly the derived key with weight 1 |
| Keys.GeneratedAuthoritySignedByItsKey | src/app/redux/CommunitySaga.js:12-16 | for a non-memo role, a set of signing keys meets the generated authority exactly when it holds the key derived for that role |
| Operations.GenerateHivemindOperation | src/app/redux/CommunitySaga.js:19-28 | the operation is a `custom_json` with no required active authorities, the actor as its only posting signer and id `community` |
| Operations.HivemindRoundTrip | src/app/redux/CommunitySaga.js:19-28 | reading the operation's JSON payload gives back exactly the action, the parameters and the actor it was built from, whatever they are |
| Operations.DecodedOperationIsGenerated | src/app/redux/CommunitySaga.js:19-28 | any operation that reads as a community command is the one `generateHivemindOperation` builds for that command, so the encoding has one form per command |
| Operations.SetRoleParamsRead | src/app/redux/CommunitySaga.js:65-74 | the `setRole` parameters read back as community = owner, account = the new account, role = `admin`, issued by the owner |
| Operations.UpdatePropsParamsRead | src/app/redux/CommunitySaga.js:76-88 | the `updateProps` parameters read back as community = owner and props with the title, the description and `is_nsfw` = `!!nsfw` |
| Operations.HivemindBatchContents | src/app/redux/CommunitySaga.js:65-93 | the broadcast batch has exactly two operations: first the `setRole` granting admin, then the `updateProps`, both decodable and both issued by the owner |
| Operations.AccountCreateOperation | src/app/redux/CommunitySaga.js:142-167 | fee `3.000 STEEM`, the funding account as creator, the owner name as the new account, owner/active/posting single-signer authorities on the keys derived from the owner name, empty metadata, and a memo key derived from the posting-key object rather than the name |
| Json.ParseStringify | src/app/redux/CommunitySaga.js:26 | the text written for any value reads back as that value |
| Json.StringifyParse | src/app/redux/CommunitySaga.js:26 | any text that reads as a value is exactly the text written for that value |
| Json.StringifyInjective | src/app/redux/CommunitySaga.js:26 | two values with the same text are equal |
| Json.EscapesControlCharacters | src/app/redux/CommunitySaga.js:26 | a line break in a string is written as a backslash and `n`, and U+0001 as `\u0001`, as `JSON.stringify` writes them |
| Saga.CustomOpsWaitsBeforeBroadcast | src/app/redux/CommunitySaga.js:39-102 | `customOps` begins with pending := true, operationError := false and a 4000 ms wait; a broadcast can only be the fourth effect, and it is the batch signed with the owner's posting key |
| Saga.CustomOpsCounts | src/app/redux/CommunitySaga.js:58-107 | one broadcast unless a key derivation throws, and no broadcast then; one success report exactly when the broadcast resolves |
| Saga.CustomOpsReportsFailure | src/app/redux/CommunitySaga.js:104-117 | operationError := true is issued exactly when the broadcast does not resolve; the last effect is always pending := false |
| Saga.PendingStaysRaised | src/app/redux/CommunitySaga.js:40-43 | after effects that start by raising pending and never lower it, pending is raised |
| Saga.CustomOpsPendingWhileRunning | src/app/redux/CommunitySaga.js:39-118 | pending stays raised after every effect of `customOps` but the last, and is lowered after the last |
| Saga.LoggedPendingWhileRunning | src/app/redux/CommunitySaga.js:39-118 | appended to any earlier effects, a run of `customOps` keeps pending raised after each of its effects but the last |
| Saga.CustomOpsSuccessWhilePending | src/app/redux/CommunitySaga.js:104-117 | when the broadcast resolves, there is a point where success is reported and pending is still raised |
| Saga.PhasesAgreeOnPostingKey | src/app/redux/CommunitySaga.js:90-101 | the key the second phase signs with meets the posting authority of the account the first phase creates, and every batch operation names that account as its posting signer |
| Saga.CreateAccountCounts | src/app/redux/CommunitySaga.js:120-188 | `createCommunityAccount` begins with pending := true; once past the key derivations it calls the success callback once and broadcasts nothing if the account exists, and otherwise broadcasts once without calling back |
| Saga.CreateAccountBroadcast | src/app/redux/CommunitySaga.js:172-188 | its only possible broadcast is the `account_create` request with prompt `Are you sure?`, issued only when the account does not yet exist |
| Saga.CreateAccountClearsPending | src/app/redux/CommunitySaga.js:189-195 | pending := false is issued exactly when an authority derivation or the success callback throws inside the `try` block |
| Saga.CommunitySaga.TryBroadcast | src/app/redux/CommunitySaga.js:58-113 | the `try`/`catch` of `customOps` appends its effects to the log, leaves pending alone, and sets operationError or communitySuccess according to the broadcast's outcome |
| Saga.CommunitySaga.CustomOps | src/app/redux/CommunitySaga.js:39-118 | the log grows by exactly the `customOps` effects; afterwards pending is lowered, operationError holds exactly when the broadcast did not resolve, and communitySuccess is set exactly when it resolved or was already set; replaying the log shows pending raised after every effect of the run but the last |
| Saga.CommunitySaga.TryCreateAccount | src/app/redux/CommunitySaga.js:141-195 | the `try`/`catch` of `createCommunityAccount` appends its effects, lowers pending only on the caught exceptions, and leaves the other flags alone |
| Saga.CommunitySaga.CreateCommunityAccount | src/app/redux/CommunitySaga.js:120-196 | an exception escapes exactly when the posting-key derivation throws; the log grows by exactly the saga's effects; pending ends lowered only on the caught exceptions; the other flags are unchanged |

## Left out

- The redux-saga runtime is not modelled: the `takeLatest` watchers (lines 31-37), cancellation of a running saga by a newer action, and concurrency between the two sagas. Each saga is one uninterrupted method call, and its `yield`s become entries in the effect log.
- `auth.getPrivateKeys`, `auth.toWif` and `auth.wifToPublic` are foreign cryptographic code. They are two arbitrary deterministic functions, so the model cannot tell whether two different inputs give the same key.
  - How steem-js turns the posting-key object passed for the memo key (line 162) into text is not modelled. That memo key is only known to be the derivation applied to that object.
  - `Object.values(key)[0]` is taken to be the private key, the first property `getPrivateKeys` writes.
- The network is not modelled. Whether `sendAsync` resolves or rejects is an input. The 4000 ms `wait` is recorded as an effect, without a clock.
- `JSON.stringify` is modelled for strings, booleans, arrays and objects only. Numbers, `null` and `undefined` are not part of the model. Characters are Unicode scalar values, so the escapes `JSON.stringify` writes for lone surrogates never arise.
- Operations.UpdatePropsParams: takes the community title and description as strings. The source passes whatever the caller put in the payload (lines 81-82). For a `null` it would write `null`, for `undefined` it would drop the key, and for a number it would write a numeral. The model does not capture those cases.
- The reducers are not part of this model. The store is four flags: `pending`, `operationError`, `communitySuccess`, and the read-only `communityAccountCreated`. A `put` whose reducer throws is not modelled.
- The callbacks passed inside `broadcastOperation` (lines 180-185) are not modelled. They run later, in the transaction saga, which is not part of this model. The modelled request carries only the type, the prompt and the operation. `errorCallback` is never called by the sagas themselves.
- `!!communityNSFW` is modelled over undefined, null, booleans, integers, strings and objects. Fractional numbers and `NaN` are not modelled.
- The caught `error` values are dropped, as the source drops them. The exception that escapes `createCommunityAccount` when the posting-key derivation throws (lines 136-140, outside the `try`) is reported only as `escaped`. `pending` is then left raised, as in the source.
- Success is reported while `pending` is still raised: `CREATE_COMMUNITY_SUCCESS` (line 104) is put before `pending` is lowered (line 114). The model keeps that order, and `Saga.CustomOpsSuccessWhilePending` exhibits the window.
