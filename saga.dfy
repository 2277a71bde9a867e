/**
 * The two sagas of the community workflow.
 *
 * `createCommunityAccount` (first phase) broadcasts `account_create` for the
 * community owner, or only calls the caller's success callback when the
 * store says the account already exists.  `customOps` (second phase) waits
 * for the settling delay and broadcasts the `setRole` / `updateProps`
 * batch.  Each saga is a method of `CommunitySaga`, which holds the store
 * flags the sagas write and an append-only log of the effects they issue.
 * What the environment decides (a foreign call that throws, the outcome of
 * the broadcast, the store's `communityAccountCreated`) is an input.
 */
module Saga {
  import opened Keys
  import opened Operations

  /** Milliseconds `customOps` waits before it broadcasts. */
  const SettlingDelayMs: nat := 4000

  /** The prompt shown before `account_create` is signed. */
  const ConfirmPrompt := "Are you sure?"

  /** The payload both sagas destructure. */
  datatype CommunityRequest = CommunityRequest(
    accountName: string,
    communityTitle: string,
    communityDescription: string,
    communityNSFW: JsValue,
    communityOwnerName: string,
    communityOwnerWifPassword: string)

  datatype Transaction = Transaction(extensions: seq<string>, operations: seq<TaggedOp>)

  /**
   * `transactionActions.broadcastOperation`.  The success and error callbacks
   * the source passes along with it are left out of the model.
   */
  datatype BroadcastRequest = BroadcastRequest(opType: string, confirm: string, operation: AccountCreate)

  /** The actions the sagas `put` to the store. */
  datatype StoreAction =
    | SetPending(pending: bool)            // CREATE_COMMUNITY_ACCOUNT_PENDING
    | SetOperationError(failed: bool)      // COMMUNITY_HIVEMIND_OPERATION_ERROR
    | CommunitySuccess                     // CREATE_COMMUNITY_SUCCESS
    | BroadcastOperation(request: BroadcastRequest)

  datatype Effect =
    | Put(action: StoreAction)
    | Wait(ms: nat)
    | SendAsync(tx: Transaction, signingKeys: seq<Wif>)
    | CallSuccessCallback

  /** The store flags the sagas read and write. */
  datatype Flags = Flags(pending: bool, operationError: bool, communitySuccess: bool, communityAccountCreated: bool)

  /** How the store flags change under one effect. */
  function Step(f: Flags, e: Effect): Flags {
    match e
    case Put(SetPending(p)) => f.(pending := p)
    case Put(SetOperationError(x)) => f.(operationError := x)
    case Put(CommunitySuccess) => f.(communitySuccess := true)
    case _ => f
  }

  /** The store flags after a sequence of effects. */
  function Replay(f: Flags, effects: seq<Effect>): Flags {
    if effects == [] then f
    else Step(Replay(f, effects[..|effects| - 1]), effects[|effects| - 1])
  }

  lemma ReplaySnoc(f: Flags, effects: seq<Effect>, e: Effect)
    ensures Replay(f, effects + [e]) == Step(Replay(f, effects), e)
  {
    assert (effects + [e])[..|effects|] == effects;
  }

  /** Replaying two runs one after the other is replaying the second from where the first left the flags. */
  lemma {:induction false} ReplayAppend(f: Flags, a: seq<Effect>, b: seq<Effect>)
    ensures Replay(f, a + b) == Replay(Replay(f, a), b)
    decreases |b|
  {
    if b == [] {
      assert a + b == a;
    } else {
      var front, last := b[..|b| - 1], b[|b| - 1];
      assert (a + b)[..|a + b| - 1] == a + front;
      ReplayAppend(f, a, front);
    }
  }

  predicate IsBroadcast(e: Effect) {
    e.SendAsync? || (e.Put? && e.action.BroadcastOperation?)
  }

  predicate IsSuccessReport(e: Effect) {
    e == Put(CommunitySuccess) || e == CallSuccessCallback
  }

  /** How many effects of a kind a sequence holds. */
  function Count(effects: seq<Effect>, p: Effect -> bool): nat {
    if effects == [] then 0
    else (if p(effects[0]) then 1 else 0) + Count(effects[1..], p)
  }

  lemma {:induction false} CountAppend(a: seq<Effect>, b: seq<Effect>, p: Effect -> bool)
    ensures Count(a + b, p) == Count(a, p) + Count(b, p)
  {
    if a == [] {
      assert a + b == b;
    } else {
      assert (a + b)[0] == a[0] && (a + b)[1..] == a[1..] + b;
      CountAppend(a[1..], b, p);
    }
  }

  lemma CountOne(e: Effect, p: Effect -> bool)
    ensures Count([e], p) == if p(e) then 1 else 0
  {
    assert [e][1..] == [];
  }

  lemma CountTwo(d: Effect, e: Effect, p: Effect -> bool)
    ensures Count([d, e], p) == (if p(d) then 1 else 0) + (if p(e) then 1 else 0)
  {
    assert [d, e][1..] == [e];
    CountOne(e, p);
  }

  lemma {:induction false} CountNone(effects: seq<Effect>, p: Effect -> bool)
    requires forall i :: 0 <= i < |effects| ==> !p(effects[i])
    ensures Count(effects, p) == 0
  {
    if effects != [] {
      CountNone(effects[1..], p);
    }
  }

  /** The kinds of effect counted in the contracts, for effects built from three pieces. */
  lemma CountThree(a: seq<Effect>, b: seq<Effect>, c: seq<Effect>)
    ensures Count(a + b + c, IsBroadcast) == Count(a, IsBroadcast) + Count(b, IsBroadcast) + Count(c, IsBroadcast)
    ensures Count(a + b + c, IsSuccessReport) == Count(a, IsSuccessReport) + Count(b, IsSuccessReport) + Count(c, IsSuccessReport)
  {
    CountAppend(a + b, c, IsBroadcast);
    CountAppend(a, b, IsBroadcast);
    CountAppend(a + b, c, IsSuccessReport);
    CountAppend(a, b, IsSuccessReport);
  }

  /** Where the broadcasts of three concatenated pieces sit, when only the middle one starts with one. */
  lemma BroadcastPosition(start: seq<Effect>, attempt: seq<Effect>, finish: seq<Effect>, send: Effect)
    requires forall j :: 0 <= j < |start| ==> !IsBroadcast(start[j])
    requires forall j :: 0 <= j < |finish| ==> !IsBroadcast(finish[j])
    requires forall j :: 0 <= j < |attempt| && IsBroadcast(attempt[j]) ==> j == 0 && attempt[j] == send
    ensures var all := start + attempt + finish;
            forall i :: 0 <= i < |all| && IsBroadcast(all[i]) ==> i == |start| && all[i] == send
  {
    var all := start + attempt + finish;
    forall i | 0 <= i < |all|
      ensures IsBroadcast(all[i]) ==> i == |start| && all[i] == send
    {
      if i < |start| {
        assert all[i] == start[i];
      } else if i < |start| + |attempt| {
        assert all[i] == attempt[i - |start|];
      } else {
        assert all[i] == finish[i - |start| - |attempt|];
      }
    }
  }

  // ---------------------------------------------------------------- second phase

  /** What the environment does in `customOps`'s `try` block. */
  datatype HivemindOutcome =
    | SendResolves        // sendAsync resolves
    | SendRejects         // sendAsync rejects
    | DerivationThrows    // getPrivateKeys or toWif throws before the broadcast

  /** The private key `customOps` signs with: the owner's posting key. */
  function PostingWif(kd: KeyDerivation, req: CommunityRequest): Wif {
    kd.toWif(AccountName(req.communityOwnerName), req.communityOwnerWifPassword, Posting)
  }

  function HivemindTransaction(req: CommunityRequest): Transaction {
    Transaction([], HivemindBatch(req.communityOwnerName, req.accountName, req.communityTitle,
                                  req.communityDescription, req.communityNSFW))
  }

  /** The broadcast `customOps` issues: the batch, signed with the owner's posting key. */
  function HivemindSend(kd: KeyDerivation, req: CommunityRequest): Effect {
    SendAsync(HivemindTransaction(req), [PostingWif(kd, req)])
  }

  /** What `customOps` issues before its `try` block: raise `pending`, clear `operationError`, wait. */
  const Opening: seq<Effect> := [Put(SetPending(true)), Put(SetOperationError(false)), Wait(SettlingDelayMs)]

  /** What `customOps` issues after its `try` block. */
  const Closing: seq<Effect> := [Put(SetPending(false))]

  /** What `customOps` issues inside its `try` block and its `catch` clause. */
  function AttemptEffects(send: Effect, env: HivemindOutcome): seq<Effect> {
    match env
    case SendResolves => [send, Put(CommunitySuccess)]
    case SendRejects => [send, Put(SetOperationError(true))]
    case DerivationThrows => [Put(SetOperationError(true))]
  }

  /** The effects one run of `customOps` issues. */
  function CustomOpsEffects(kd: KeyDerivation, req: CommunityRequest, env: HivemindOutcome): seq<Effect> {
    Opening + AttemptEffects(HivemindSend(kd, req), env) + Closing
  }

  lemma OpeningClosingCounts()
    ensures Count(Opening, IsBroadcast) == 0 && Count(Opening, IsSuccessReport) == 0
    ensures Count(Closing, IsBroadcast) == 0 && Count(Closing, IsSuccessReport) == 0
  {
    CountNone(Opening, IsBroadcast);
    CountNone(Opening, IsSuccessReport);
    CountOne(Closing[0], IsBroadcast);
    CountOne(Closing[0], IsSuccessReport);
  }

  lemma AttemptCounts(send: Effect, env: HivemindOutcome)
    requires IsBroadcast(send) && !IsSuccessReport(send)
    ensures Count(AttemptEffects(send, env), IsBroadcast) == if env == DerivationThrows then 0 else 1
    ensures Count(AttemptEffects(send, env), IsSuccessReport) == if env == SendResolves then 1 else 0
  {
    var attempt := AttemptEffects(send, env);
    if env == DerivationThrows {
      CountOne(attempt[0], IsBroadcast);
      CountOne(attempt[0], IsSuccessReport);
    } else {
      CountTwo(attempt[0], attempt[1], IsBroadcast);
      CountTwo(attempt[0], attempt[1], IsSuccessReport);
    }
  }

  /**
   * `customOps` first raises `pending`, clears `operationError` and waits;
   * the only broadcast comes after the wait and carries the batch signed
   * with the owner's posting key.
   */
  lemma CustomOpsWaitsBeforeBroadcast(kd: KeyDerivation, req: CommunityRequest, env: HivemindOutcome)
    ensures var effects := CustomOpsEffects(kd, req, env);
            && |effects| > 3
            && effects[..3] == [Put(SetPending(true)), Put(SetOperationError(false)), Wait(SettlingDelayMs)]
            && forall i :: 0 <= i < |effects| && IsBroadcast(effects[i]) ==> i == 3 && effects[i] == HivemindSend(kd, req)
  {
    var attempt := AttemptEffects(HivemindSend(kd, req), env);
    BroadcastPosition(Opening, attempt, Closing, HivemindSend(kd, req));
    assert (Opening + attempt + Closing)[..3] == Opening;
  }

  /** A run of `customOps` broadcasts once unless a derivation throws, and reports success exactly when the broadcast resolves. */
  lemma CustomOpsCounts(kd: KeyDerivation, req: CommunityRequest, env: HivemindOutcome)
    ensures Count(CustomOpsEffects(kd, req, env), IsBroadcast) == if env == DerivationThrows then 0 else 1
    ensures Count(CustomOpsEffects(kd, req, env), IsSuccessReport) == if env == SendResolves then 1 else 0
  {
    var attempt := AttemptEffects(HivemindSend(kd, req), env);
    CountThree(Opening, attempt, Closing);
    OpeningClosingCounts();
    AttemptCounts(HivemindSend(kd, req), env);
  }

  /** A run of `customOps` raises `operationError` exactly when the broadcast does not resolve, and ends by clearing `pending`. */
  lemma CustomOpsReportsFailure(kd: KeyDerivation, req: CommunityRequest, env: HivemindOutcome)
    ensures var effects := CustomOpsEffects(kd, req, env);
            && (Put(SetOperationError(true)) in effects <==> env != SendResolves)
            && effects != [] && effects[|effects| - 1] == Put(SetPending(false))
  {
    var attempt := AttemptEffects(HivemindSend(kd, req), env);
    var effects := Opening + attempt + Closing;
    if env == SendResolves {
      forall i | 0 <= i < |effects|
        ensures effects[i] != Put(SetOperationError(true))
      {
        if i < 3 {
          assert effects[i] == Opening[i];
        } else if i < 5 {
          assert effects[i] == attempt[i - 3];
        } else {
          assert effects[i] == Closing[0];
        }
      }
    } else {
      assert effects[|Opening| + |attempt| - 1] == Put(SetOperationError(true));
    }
  }

  /** A run that starts by raising `pending` and never lowers it leaves `pending` raised. */
  lemma {:induction false} PendingStaysRaised(f: Flags, effects: seq<Effect>)
    requires effects != [] && effects[0] == Put(SetPending(true))
    requires forall i :: 0 <= i < |effects| ==> effects[i] != Put(SetPending(false))
    ensures Replay(f, effects).pending
    decreases |effects|
  {
    if |effects| == 1 {
      assert effects[..0] == [];
    } else {
      var front := effects[..|effects| - 1];
      assert front[0] == effects[0];
      PendingStaysRaised(f, front);
    }
  }

  /** From its first effect until its last, `customOps` keeps `pending` raised; its last effect lowers it. */
  lemma CustomOpsPendingWhileRunning(kd: KeyDerivation, req: CommunityRequest, env: HivemindOutcome, f: Flags, k: nat)
    requires 1 <= k < |CustomOpsEffects(kd, req, env)|
    ensures Replay(f, CustomOpsEffects(kd, req, env)[..k]).pending
    ensures !Replay(f, CustomOpsEffects(kd, req, env)).pending
  {
    var attempt := AttemptEffects(HivemindSend(kd, req), env);
    var effects := Opening + attempt + Closing;
    var prefix := effects[..k];
    forall i | 0 <= i < |prefix|
      ensures prefix[i] != Put(SetPending(false))
    {
      if i < 3 {
        assert prefix[i] == Opening[i];
      } else {
        assert prefix[i] == attempt[i - 3];
      }
    }
    assert prefix[0] == Put(SetPending(true));
    PendingStaysRaised(f, prefix);
    assert effects[|effects| - 1] == Put(SetPending(false));
  }

  /**
   * Whatever ran before, a run of `customOps` appended to it keeps `pending`
   * raised after each of its effects but the last.
   */
  lemma LoggedPendingWhileRunning(f: Flags, before: seq<Effect>, kd: KeyDerivation, req: CommunityRequest,
                                  env: HivemindOutcome, k: nat)
    requires |before| < k < |before| + |CustomOpsEffects(kd, req, env)|
    ensures Replay(f, (before + CustomOpsEffects(kd, req, env))[..k]).pending
  {
    var effects := CustomOpsEffects(kd, req, env);
    var j := k - |before|;
    assert (before + effects)[..k] == before + effects[..j];
    ReplayAppend(f, before, effects[..j]);
    CustomOpsPendingWhileRunning(kd, req, env, Replay(f, before), j);
  }

  /**
   * When the broadcast resolves, `customOps` reports success while `pending`
   * is still raised: after its fifth effect both flags are set.
   */
  lemma CustomOpsSuccessWhilePending(kd: KeyDerivation, req: CommunityRequest, f: Flags)
    ensures var effects := CustomOpsEffects(kd, req, SendResolves);
            && |effects| == 6
            && Replay(f, effects[..5]).communitySuccess
            && Replay(f, effects[..5]).pending
  {
    var effects := CustomOpsEffects(kd, req, SendResolves);
    CustomOpsPendingWhileRunning(kd, req, SendResolves, f, 5);
    assert effects[..5][..4] == effects[..4];
    assert effects[4] == Put(CommunitySuccess);
  }

  // ---------------------------------------------------------------- first phase

  /** What the environment does in `createCommunityAccount`. */
  datatype AccountOutcome =
    | Completes                // nothing throws
    | PostingKeysThrow         // getPrivateKeys throws before the try block
    | AuthorityThrows          // a generateAuth call throws inside the try block
    | SuccessCallbackThrows    // the caller's successCallback throws when it is called

  function OwnerPostingKeys(kd: KeyDerivation, req: CommunityRequest): KeySet {
    GetPrivateKeys(kd, AccountName(req.communityOwnerName), req.communityOwnerWifPassword, Posting)
  }

  function AccountCreateRequest(kd: KeyDerivation, req: CommunityRequest): BroadcastRequest {
    BroadcastRequest("account_create", ConfirmPrompt,
      AccountCreateOperation(kd, req.accountName, req.communityOwnerName, req.communityOwnerWifPassword,
                             OwnerPostingKeys(kd, req)))
  }

  /** What `createCommunityAccount` issues after raising `pending`, given the store's `communityAccountCreated`. */
  function AccountTail(broadcast: Effect, created: bool, env: AccountOutcome): seq<Effect> {
    match env
    case PostingKeysThrow => []
    case AuthorityThrows => [Put(SetPending(false))]
    case _ =>
      if !created then [broadcast]
      else if env == SuccessCallbackThrows then [CallSuccessCallback, Put(SetPending(false))]
      else [CallSuccessCallback]
  }

  /** The effects one run of `createCommunityAccount` issues. */
  function CreateAccountEffects(kd: KeyDerivation, req: CommunityRequest, created: bool, env: AccountOutcome): seq<Effect> {
    [Put(SetPending(true))] + AccountTail(Put(BroadcastOperation(AccountCreateRequest(kd, req))), created, env)
  }

  lemma AccountTailCounts(broadcast: Effect, created: bool, env: AccountOutcome)
    requires IsBroadcast(broadcast) && !IsSuccessReport(broadcast)
    ensures var tail := AccountTail(broadcast, created, env);
            var reached := env != PostingKeysThrow && env != AuthorityThrows;
            && Count(tail, IsSuccessReport) == (if reached && created then 1 else 0)
            && Count(tail, IsBroadcast) == (if reached && !created then 1 else 0)
  {
    var tail := AccountTail(broadcast, created, env);
    if |tail| == 1 {
      CountOne(tail[0], IsBroadcast);
      CountOne(tail[0], IsSuccessReport);
    } else if |tail| == 2 {
      CountTwo(tail[0], tail[1], IsBroadcast);
      CountTwo(tail[0], tail[1], IsSuccessReport);
    }
  }

  /**
   * A run of `createCommunityAccount` first raises `pending`.  Once past the
   * key derivations, it calls the success callback once and broadcasts
   * nothing when the account already exists, and otherwise broadcasts once
   * without calling back; a derivation that throws leaves it with neither.
   */
  lemma CreateAccountCounts(kd: KeyDerivation, req: CommunityRequest, created: bool, env: AccountOutcome)
    ensures var effects := CreateAccountEffects(kd, req, created, env);
            var reached := env != PostingKeysThrow && env != AuthorityThrows;
            && effects != [] && effects[0] == Put(SetPending(true))
            && Count(effects, IsSuccessReport) == (if reached && created then 1 else 0)
            && Count(effects, IsBroadcast) == (if reached && !created then 1 else 0)
  {
    var broadcast := Put(BroadcastOperation(AccountCreateRequest(kd, req)));
    var tail := AccountTail(broadcast, created, env);
    CountAppend([Put(SetPending(true))], tail, IsBroadcast);
    CountAppend([Put(SetPending(true))], tail, IsSuccessReport);
    CountOne(Put(SetPending(true)), IsBroadcast);
    CountOne(Put(SetPending(true)), IsSuccessReport);
    AccountTailCounts(broadcast, created, env);
  }

  /** The only broadcast `createCommunityAccount` can issue is the `account_create` request, and only for an account not yet created. */
  lemma CreateAccountBroadcast(kd: KeyDerivation, req: CommunityRequest, created: bool, env: AccountOutcome)
    ensures var effects := CreateAccountEffects(kd, req, created, env);
            && (forall i :: 0 <= i < |effects| && IsBroadcast(effects[i]) ==>
                  effects[i] == Put(BroadcastOperation(AccountCreateRequest(kd, req))) && !created)
            && (!created && env != PostingKeysThrow && env != AuthorityThrows ==>
                  Put(BroadcastOperation(AccountCreateRequest(kd, req))) in effects)
  {
    var broadcast := Put(BroadcastOperation(AccountCreateRequest(kd, req)));
    var effects := CreateAccountEffects(kd, req, created, env);
    forall i | 0 <= i < |effects|
      ensures IsBroadcast(effects[i]) ==> effects[i] == broadcast && !created
    {
      if i > 0 {
        assert effects[i] == AccountTail(broadcast, created, env)[i - 1];
      }
    }
    if !created && env != PostingKeysThrow && env != AuthorityThrows {
      assert effects[1] == broadcast;
    }
  }

  /** `createCommunityAccount` clears `pending` only from its `catch` clause. */
  lemma CreateAccountClearsPending(kd: KeyDerivation, req: CommunityRequest, created: bool, env: AccountOutcome)
    ensures Put(SetPending(false)) in CreateAccountEffects(kd, req, created, env)
            <==> env == AuthorityThrows || (created && env == SuccessCallbackThrows)
  {
    var broadcast := Put(BroadcastOperation(AccountCreateRequest(kd, req)));
    var tail := AccountTail(broadcast, created, env);
    var effects := [Put(SetPending(true))] + tail;
    if env == AuthorityThrows {
      assert effects[1] == Put(SetPending(false));
    } else if created && env == SuccessCallbackThrows {
      assert effects[2] == Put(SetPending(false));
    } else {
      forall i | 0 <= i < |effects|
        ensures effects[i] != Put(SetPending(false))
      {
        if i > 0 {
          assert effects[i] == tail[i - 1];
        }
      }
    }
  }

  /**
   * The two phases fit together: `customOps` signs with the posting key of
   * the account that `createCommunityAccount` asks to create, that key meets
   * the posting authority of the `account_create` operation, and every
   * operation of the batch names that account as its one posting signer.
   */
  lemma PhasesAgreeOnPostingKey(kd: KeyDerivation, req: CommunityRequest)
    ensures var created := AccountCreateRequest(kd, req).operation;
            && Satisfied(created.posting, {kd.wifToPublic(PostingWif(kd, req))})
            && forall op | op in HivemindTransaction(req).operations :: op.body.requiredPostingAuths == [created.newAccountName]
  {
    var created := AccountCreateRequest(kd, req).operation;
    var key := kd.wifToPublic(PostingWif(kd, req));
    assert created.posting.keyAuths == [KeyAuth(key, 1)];
    assert [KeyAuth(key, 1)][1..] == [];
  }

  // ---------------------------------------------------------------- the sagas

  class CommunitySaga {
    var pending: bool
    var operationError: bool
    var communitySuccess: bool
    /** Read by `createCommunityAccount` through `select`; no saga here writes it. */
    const communityAccountCreated: bool
    /** Every effect issued so far, oldest first. */
    var log: seq<Effect>
    /** The store flags before the first effect. */
    ghost const initial: Flags

    function Current(): Flags
      reads this
    {
      Flags(pending, operationError, communitySuccess, communityAccountCreated)
    }

    /** The flags are what the logged effects made of the initial flags. */
    ghost predicate Valid()
      reads this
    {
      Current() == Replay(initial, log)
    }

    constructor (start: Flags)
      ensures Valid() && log == [] && Current() == start && initial == start
    {
      pending, operationError, communitySuccess := start.pending, start.operationError, start.communitySuccess;
      communityAccountCreated := start.communityAccountCreated;
      log := [];
      initial := start;
    }

    /** Issues one effect: logs it and applies it to the flags. */
    method Emit(e: Effect)
      requires Valid()
      modifies this
      ensures Valid()
      ensures log == old(log) + [e] && Current() == Step(old(Current()), e)
    {
      var next := Step(Current(), e);
      ReplaySnoc(initial, log, e);
      pending, operationError, communitySuccess := next.pending, next.operationError, next.communitySuccess;
      log := log + [e];
    }

    /** The `try` block of `customOps` and its `catch` clause. */
    method TryBroadcast(kd: KeyDerivation, req: CommunityRequest, env: HivemindOutcome)
      requires Valid()
      modifies this
      ensures Valid()
      ensures log == old(log) + AttemptEffects(HivemindSend(kd, req), env)
      ensures pending == old(pending)
      ensures operationError == (old(operationError) || env != SendResolves)
      ensures communitySuccess == (old(communitySuccess) || env == SendResolves)
    {
      var owner, pass := req.communityOwnerName, req.communityOwnerWifPassword;
      if env == DerivationThrows {
        Emit(Put(SetOperationError(true)));
        return;
      }
      var setRole := GenerateHivemindOperation(SetRoleAction, SetRoleParams(owner, req.accountName), owner);
      var updateProps := GenerateHivemindOperation(UpdatePropsAction,
        UpdatePropsParams(owner, req.communityTitle, req.communityDescription, req.communityNSFW), owner);
      var signer := kd.toWif(AccountName(owner), pass, Posting);
      var send := SendAsync(Transaction([], [setRole, updateProps]), [signer]);
      assert send == HivemindSend(kd, req);
      Emit(send);
      if env == SendRejects {
        Emit(Put(SetOperationError(true)));
      } else {
        Emit(Put(CommunitySuccess));
      }
    }

    /** `customOps`: the second phase. No exception leaves it. */
    method CustomOps(kd: KeyDerivation, req: CommunityRequest, env: HivemindOutcome)
      requires Valid()
      modifies this
      ensures Valid()
      ensures log == old(log) + CustomOpsEffects(kd, req, env)
      ensures !pending && operationError == (env != SendResolves)
      ensures communitySuccess == (old(communitySuccess) || env == SendResolves)
      ensures forall k :: |old(log)| < k < |log| ==> Replay(initial, log[..k]).pending
    {
      Emit(Put(SetPending(true)));
      Emit(Put(SetOperationError(false)));
      Emit(Wait(SettlingDelayMs));
      assert log == old(log) + Opening;
      ghost var waited := log;
      TryBroadcast(kd, req, env);
      ghost var attempted := log;
      Emit(Put(SetPending(false)));
      assert log == old(log) + (Opening + AttemptEffects(HivemindSend(kd, req), env) + Closing) by {
        assert log == attempted + Closing;
        assert attempted == waited + AttemptEffects(HivemindSend(kd, req), env);
      }
      forall k | |old(log)| < k < |log|
        ensures Replay(initial, log[..k]).pending
      {
        LoggedPendingWhileRunning(initial, old(log), kd, req, env, k);
      }
    }

    /** The `try` block of `createCommunityAccount` and its `catch` clause. */
    method TryCreateAccount(kd: KeyDerivation, req: CommunityRequest, ownerPosting: KeySet, env: AccountOutcome)
      requires Valid() && env != PostingKeysThrow
      requires ownerPosting == OwnerPostingKeys(kd, req)
      modifies this
      ensures Valid()
      ensures log == old(log) + AccountTail(Put(BroadcastOperation(AccountCreateRequest(kd, req))), communityAccountCreated, env)
      ensures pending == (old(pending) && !(env == AuthorityThrows || (communityAccountCreated && env == SuccessCallbackThrows)))
      ensures operationError == old(operationError) && communitySuccess == old(communitySuccess)
    {
      if env == AuthorityThrows {
        Emit(Put(SetPending(false)));
        return;
      }
      var op := AccountCreateOperation(kd, req.accountName, req.communityOwnerName,
                                       req.communityOwnerWifPassword, ownerPosting);
      var alreadyCreated := communityAccountCreated;
      if alreadyCreated {
        Emit(CallSuccessCallback);
        if env == SuccessCallbackThrows {
          Emit(Put(SetPending(false)));
        }
      } else {
        Emit(Put(BroadcastOperation(BroadcastRequest("account_create", ConfirmPrompt, op))));
      }
    }

    /**
     * `createCommunityAccount`: the first phase.  `escaped` is set when an
     * exception leaves the saga (the posting-key derivation sits outside its
     * `try` block).
     */
    method CreateCommunityAccount(kd: KeyDerivation, req: CommunityRequest, env: AccountOutcome) returns (escaped: bool)
      requires Valid()
      modifies this
      ensures Valid()
      ensures escaped <==> env == PostingKeysThrow
      ensures log == old(log) + CreateAccountEffects(kd, req, communityAccountCreated, env)
      ensures pending == !(env == AuthorityThrows || (communityAccountCreated && env == SuccessCallbackThrows))
      ensures operationError == old(operationError) && communitySuccess == old(communitySuccess)
    {
      Emit(Put(SetPending(true)));
      if env == PostingKeysThrow {
        return true;
      }
      var ownerPosting := GetPrivateKeys(kd, AccountName(req.communityOwnerName), req.communityOwnerWifPassword, Posting);
      ghost var raised := log;
      TryCreateAccount(kd, req, ownerPosting, env);
      assert log == raised + AccountTail(Put(BroadcastOperation(AccountCreateRequest(kd, req))), communityAccountCreated, env);
      escaped := false;
    }
  }
}
