/**
 * The application controller: one signing key and one bubble per device,
 * saved under a fixed local-storage name, provisioned in the same stages as a
 * session but with its own record format and a fixed bubble host, and a
 * cache of tasks it reads and writes directly. Every change the user
 * interface sees is a dispatch to the state manager.
 */
module TodoApp {
  import opened Common
  import opened Tasks
  import opened Sessions

  const APP_ID := "todo-list-example"
  const CHAIN := 84531
  const BUBBLE_PROVIDER := "https://vault.bubbleprotocol.com/v2/base-goerli"

  const CONNECT_FAILED := "Could not connect wallet: "
  const WRITE_FAILED := "Failed to write task: "
  const DELETE_FAILED := "Failed to delete task: "

  /** The life cycle the interface follows. */
  datatype AppState = Closed | New | Initialising | Initialised | Failed

  /** One dispatch to the state manager: the new state, an error, or the task list to show. */
  datatype Dispatch = StateSet(state: AppState) | ErrorSet(error: Error) | TasksSet(tasks: seq<Task>)

  /** The error `prefix` + the message of `e`. */
  function Prefixed(prefix: string, e: Error): (r: Error)
    ensures |r.message| == |prefix| + |e.message|
    ensures r.message[..|prefix|] == prefix && r.message[|prefix|..] == e.message
  {
    Error(prefix + e.message)
  }

  /**
   * The rejection raised by calling `member` on the bubble before any bubble
   * was built (the engine's message for a property of undefined).
   */
  function UndefinedBubble(member: string): Error {
    Error("Cannot read properties of undefined (reading '" + member + "')")
  }

  /**
   * The session object in memory: every field the saved record held, with
   * the key rebuilt from the private key when it is truthy. A falsy key is
   * treated as no key by every test that reads it.
   */
  datatype AppSession = AppSession(version: Option<int>, key: Option<Key>, bubbleId: Option<BubbleId>)

  /** `_loadState`: the session rebuilt from the saved record, or an empty one. There is no migration. */
  function LoadedSession(stored: Option<Record>): (s: AppSession)
    ensures stored.None? ==> s == AppSession(None, None, None)
    ensures stored.Some? ==> s.version == stored.value.version && s.bubbleId == stored.value.bubbleId
    ensures stored.Some? ==> (s.key.Some? <==> Truthy(stored.value.key))
    ensures s.key.Some? ==> stored.Some? && s.key.value.privateKey == stored.value.key.value
  {
    match stored
    case None => AppSession(None, None, None)
    case Some(rec) => AppSession(rec.version, if Truthy(rec.key) then Some(Key(rec.key.value)) else None, rec.bubbleId)
  }

  /** `_saveState`: a copy of the session with the key serialised; no version is added. */
  function SavedSession(s: AppSession): (r: Record)
    requires s.key.Some?
    ensures r.version == s.version
    ensures LoadedSession(Some(r)) == s
  {
    Record(s.version, Some(s.key.value.privateKey), s.bubbleId)
  }

  /** The result of the provisioning stages of `_initialise`, as for a session. */
  datatype AppProvisioning = AppProvisioning(session: AppSession, calls: seq<Call>, outcome: Outcome, bubble: Option<Bubble>)

  /**
   * The provisioning stages of `_initialise`. With no session or no key the
   * session is replaced by one holding only a new key, so a recorded bubble
   * id is dropped; a deployment records only the chain and the address; the
   * bubble is always reached at `BUBBLE_PROVIDER`.
   */
  function AppProvision(s: Option<AppSession>, replies: Replies): (p: AppProvisioning)
    ensures p.session.key == if s.Some? && s.value.key.Some? then s.value.key else Some(replies.freshKey)
    ensures p.bubble.Some? <==>
      (s.Some? && s.value.key.Some? && !NeedsDeploy(s.value.bubbleId)) || replies.deployed.Success?
    ensures p.bubble.Some? ==> p.session.bubbleId.Some? && p.bubble.value == Bubble(p.session.bubbleId.value, BUBBLE_PROVIDER)
    ensures p.outcome.Pass? ==> p.bubble.Some?
  {
    var keyless := s.None? || s.value.key.None?;
    var keyed := if keyless then AppSession(None, Some(replies.freshKey), None) else s.value;
    var saved := if keyless then [Store(APP_ID, SavedSession(keyed))] else [];
    AppDeployStage(keyed, replies, saved)
  }

  /**
   * The stages after the key, `calls` being what was issued before: deploy
   * on `CHAIN` when no contract is recorded and save, then go on to the
   * bubble. A failed deployment ends the attempt with no bubble.
   */
  function AppDeployStage(s: AppSession, replies: Replies, calls: seq<Call>): (p: AppProvisioning)
    requires s.key.Some?
    ensures p.session.key == s.key && p.session.version == s.version
    ensures p.bubble.Some? <==> !NeedsDeploy(s.bubbleId) || replies.deployed.Success?
    ensures p.bubble.None? ==> p.session == s && p.outcome.Fail?
    ensures p.bubble.Some? ==>
      p.session.bubbleId.Some? && Truthy(p.session.bubbleId.value.contract) &&
      p.bubble.value == Bubble(p.session.bubbleId.value, BUBBLE_PROVIDER)
  {
    if NeedsDeploy(s.bubbleId) then
      var deploying := calls + [Deploy(CHAIN, s.key.value)];
      match replies.deployed
      case Failure(e) => AppProvisioning(s, deploying, Fail(e), None)
      case Success(address) =>
        var deployed := s.(bubbleId := Some(BubbleId(Some(CHAIN), Some(address), None)));
        AppBubbleStage(deployed, replies.created, deploying + [Store(APP_ID, SavedSession(deployed))])
    else
      AppBubbleStage(s, replies.created, calls)
  }

  /**
   * The bubble stage: the bubble is created with no options when no provider
   * is recorded. The provider is set in memory before the creation, so it
   * is recorded there whether or not the creation succeeds.
   */
  function AppBubbleStage(s: AppSession, created: Outcome, calls: seq<Call>): (p: AppProvisioning)
    requires s.key.Some? && s.bubbleId.Some?
    ensures p.session.key == s.key && p.session.version == s.version
    ensures p.session.bubbleId.Some? && p.bubble == Some(Bubble(p.session.bubbleId.value, BUBBLE_PROVIDER))
    ensures p.session.bubbleId.value.chain == s.bubbleId.value.chain
    ensures p.session.bubbleId.value.contract == s.bubbleId.value.contract
    ensures Truthy(p.session.bubbleId.value.provider)
    ensures p.outcome.Fail? ==> p.outcome == created && NeedsCreate(s.bubbleId.value)
    ensures NeedsCreate(s.bubbleId.value) ==>
      p.outcome == created && p.session.bubbleId.value.provider == Some(BUBBLE_PROVIDER) &&
      CreateBubble(p.bubble.value, None) in p.calls
    ensures NeedsCreate(s.bubbleId.value) && created.Pass? ==> p.calls[|p.calls| - 1] == Store(APP_ID, SavedSession(p.session))
    ensures !NeedsCreate(s.bubbleId.value) ==> p.outcome.Pass? && p.calls == calls && p.session == s
  {
    var b := s.bubbleId.value;
    if NeedsCreate(b) then
      var named := s.(bubbleId := Some(b.(provider := Some(BUBBLE_PROVIDER))));
      var bubble := Bubble(named.bubbleId.value, BUBBLE_PROVIDER);
      var creating := calls + [CreateBubble(bubble, None)];
      match created
      case Fail(e) => AppProvisioning(named, creating, Fail(e), Some(bubble))
      case Pass => AppProvisioning(named, creating + [Store(APP_ID, SavedSession(named))], Pass, Some(bubble))
    else
      AppProvisioning(s, calls, Pass, Some(Bubble(b, BUBBLE_PROVIDER)))
  }

  /**
   * How `_initialise` settles: the first failing stage, or else the load,
   * which succeeds exactly when the listing and every read succeed.
   */
  function Settled(p: AppProvisioning, listing: Result<seq<FileId>>, reader: FileId -> Result<TaskContent>): (r: Outcome)
    ensures p.outcome.Fail? ==> r == p.outcome
    ensures r.Pass? <==>
      p.outcome.Pass? && listing.Success? &&
      forall i :: 0 <= i < |listing.value| ==> reader(listing.value[i]).Success?
  {
    if p.outcome.Fail? then p.outcome else LoadOutcome(listing, reader)
  }

  /** The dispatches of `_initialiseSession`, apart from the task list shown on success. */
  function InitialiseDispatches(r: Outcome, tasks: seq<Task>): (ds: seq<Dispatch>)
    ensures |ds| == 3 && ds[0] == StateSet(Initialising)
    ensures r.Pass? <==> ds[2] == StateSet(Initialised)
    ensures r.Fail? ==> ErrorSet(r.error) in ds && TasksSet(tasks) !in ds
  {
    if r.Pass? then [StateSet(Initialising), TasksSet(tasks), StateSet(Initialised)]
    else [StateSet(Initialising), StateSet(Failed), ErrorSet(r.error)]
  }

  /** A session with a key keeps it; without one, the new key is saved first, in a record with no version and no bubble id. */
  lemma AppProvisionKeepsKey(s: Option<AppSession>, replies: Replies)
    ensures var p := AppProvision(s, replies);
      p.session.key.Some? &&
      (s.Some? && s.value.key.Some? ==> p.session.key == s.value.key && p.session.version == s.value.version) &&
      (s.None? || s.value.key.None? ==>
        p.session.key == Some(replies.freshKey) && p.session.version.None? &&
        p.calls[0] == Store(APP_ID, Record(None, Some(replies.freshKey.privateKey), None)))
  {
  }

  /** A session without a key deploys a new contract even when a contract address was recorded. */
  lemma AppKeylessSessionRedeploys(s: AppSession, replies: Replies)
    requires s.key.None?
    ensures var p := AppProvision(Some(s), replies);
      |p.calls| >= 2 && p.calls[1] == Deploy(CHAIN, replies.freshKey)
  {
  }

  /** A recorded contract is not redeployed when the session has its key. */
  lemma AppProvisionNoRedeploy(s: AppSession, replies: Replies)
    requires s.key.Some? && !NeedsDeploy(s.bubbleId)
    ensures var p := AppProvision(Some(s), replies);
      (forall c :: c in p.calls ==> !c.Deploy?) &&
      p.session.bubbleId.Some? && p.session.bubbleId.value.contract == s.bubbleId.value.contract
  {
  }

  /** The bubble stage only adds calls: whatever was issued before it is still in the log. */
  lemma AppBubbleStageKeepsCalls(s: AppSession, created: Outcome, calls: seq<Call>, c: Call)
    requires s.key.Some? && s.bubbleId.Some? && c in calls
    ensures c in AppBubbleStage(s, created, calls).calls
  {
  }

  /**
   * Whenever the session has no key or no contract is recorded, a deployment
   * on `CHAIN` with the session's key is issued, whatever the wallet replies.
   */
  lemma {:induction false} AppDeploysWhenMissing(s: Option<AppSession>, replies: Replies)
    ensures var p := AppProvision(s, replies);
      s.None? || s.value.key.None? || NeedsDeploy(s.value.bubbleId) ==>
        Deploy(CHAIN, p.session.key.value) in p.calls
  {
    var keyless := s.None? || s.value.key.None?;
    var keyed := if keyless then AppSession(None, Some(replies.freshKey), None) else s.value;
    var saved := if keyless then [Store(APP_ID, SavedSession(keyed))] else [];
    if NeedsDeploy(keyed.bubbleId) {
      var deploying := saved + [Deploy(CHAIN, keyed.key.value)];
      assert Deploy(CHAIN, keyed.key.value) in deploying;
      if replies.deployed.Success? {
        var deployed := keyed.(bubbleId := Some(BubbleId(Some(CHAIN), Some(replies.deployed.value), None)));
        AppBubbleStageKeepsCalls(deployed, replies.created, deploying + [Store(APP_ID, SavedSession(deployed))], Deploy(CHAIN, keyed.key.value));
      }
    }
  }

  /**
   * Successful provisioning leaves a key, a contract and a provider. The
   * bubble is always reached at `BUBBLE_PROVIDER`, whatever provider the
   * session records, and is created without options.
   */
  lemma AppProvisionBubble(s: Option<AppSession>, replies: Replies)
    ensures var p := AppProvision(s, replies);
      (p.outcome.Pass? ==>
        p.session.key.Some? && p.session.bubbleId.Some? &&
        Truthy(p.session.bubbleId.value.contract) && Truthy(p.session.bubbleId.value.provider)) &&
      (p.bubble.Some? ==> p.bubble.value == Bubble(p.session.bubbleId.value, BUBBLE_PROVIDER)) &&
      (forall c :: c in p.calls && c.CreateBubble? ==> c.silent.None?)
  {
  }

  /** Every record saved is saved under `APP_ID` and carries the version the session was loaded with, if any. */
  lemma AppProvisionSavesNoNewVersion(s: Option<AppSession>, replies: Replies)
    ensures var p := AppProvision(s, replies);
      forall c :: c in p.calls && c.Store? ==>
        c.name == APP_ID && c.record.version == p.session.version &&
        c.record.key.Some? && c.record.key.value == p.session.key.value.privateKey
  {
    var keyless := s.None? || s.value.key.None?;
    var keyed := if keyless then AppSession(None, Some(replies.freshKey), None) else s.value;
    var saved := if keyless then [Store(APP_ID, SavedSession(keyed))] else [];
    AppDeployStageSaves(keyed, replies, saved);
  }

  /** The deploy and bubble stages save under `APP_ID`, with the session's version and key, and keep what was issued before. */
  lemma AppDeployStageSaves(s: AppSession, replies: Replies, calls: seq<Call>)
    requires s.key.Some?
    requires forall c :: c in calls && c.Store? ==>
      c.name == APP_ID && c.record.version == s.version &&
      c.record.key.Some? && c.record.key.value == s.key.value.privateKey
    ensures var p := AppDeployStage(s, replies, calls);
      forall c :: c in p.calls && c.Store? ==>
        c.name == APP_ID && c.record.version == p.session.version &&
        c.record.key.Some? && c.record.key.value == p.session.key.value.privateKey
  {
    if NeedsDeploy(s.bubbleId) && replies.deployed.Success? {
      var deployed := s.(bubbleId := Some(BubbleId(Some(CHAIN), Some(replies.deployed.value), None)));
      var deploying := calls + [Deploy(CHAIN, s.key.value)] + [Store(APP_ID, SavedSession(deployed))];
      assert AppDeployStage(s, replies, calls) == AppBubbleStage(deployed, replies.created, deploying);
    }
  }

  /**
   * A retry by `createTodoList` starts from the session the failed attempt
   * left in memory: the key is not generated again, and a contract the first
   * attempt deployed is not deployed again.
   */
  lemma AppRetryResumes(s: Option<AppSession>, first: Replies, second: Replies)
    ensures var p1 := AppProvision(s, first);
      var p2 := AppProvision(Some(p1.session), second);
      p2.session.key == p1.session.key &&
      (p1.bubble.Some? ==> forall c :: c in p2.calls ==> !c.Deploy?)
  {
  }

  /**
   * A failed creation leaves the provider set in memory but in no saved
   * record, so a retry by `createTodoList` on the same controller skips the
   * creation: it issues no call at all before the load.
   */
  lemma AppFailedCreateNotRetried(s: Option<AppSession>, first: Replies, second: Replies)
    ensures var p1 := AppProvision(s, first);
      p1.outcome.Fail? && p1.bubble.Some? ==>
        Truthy(p1.session.bubbleId.value.provider) &&
        (forall c :: c in p1.calls && c.Store? ==> c.record.bubbleId.None? || !Truthy(c.record.bubbleId.value.provider)) &&
        AppProvision(Some(p1.session), second).calls == [] &&
        AppProvision(Some(p1.session), second).outcome.Pass?
  {
  }

  /**
   * What the controller reloads from local storage after one provisioning
   * attempt, when local storage agreed with memory before it: the key and
   * the contract are as in memory, and so is the provider once the creation
   * succeeded, since it is saved right after; when the creation failed, the
   * provider reloaded is still falsy.
   */
  lemma {:induction false} AppProvisionSavedState(storage: map<string, Record>, s: AppSession, replies: Replies)
    requires LoadedSession(Lookup(storage, APP_ID)) == s
    ensures var p := AppProvision(Some(s), replies);
      var saved := LoadedSession(Lookup(Replay(storage, p.calls), APP_ID));
      saved.key == p.session.key &&
      (p.outcome.Pass? || p.bubble.None? ==> saved == p.session) &&
      (p.outcome.Fail? && p.bubble.Some? ==>
        saved.bubbleId.Some? && NeedsCreate(saved.bubbleId.value) &&
        saved.bubbleId.value.chain == p.session.bubbleId.value.chain &&
        saved.bubbleId.value.contract == p.session.bubbleId.value.contract)
  {
    var keyless := s.key.None?;
    var keyed := if keyless then AppSession(None, Some(replies.freshKey), None) else s;
    var saved := if keyless then [Store(APP_ID, SavedSession(keyed))] else [];
    if keyless {
      ReplaySnoc(storage, [], Store(APP_ID, SavedSession(keyed)));
      assert [] + saved == saved;
    }
    assert LoadedSession(Lookup(Replay(storage, saved), APP_ID)) == keyed;
    if NeedsDeploy(keyed.bubbleId) {
      var deploying := saved + [Deploy(CHAIN, keyed.key.value)];
      ReplaySnoc(storage, saved, Deploy(CHAIN, keyed.key.value));
      if replies.deployed.Success? {
        var deployed := keyed.(bubbleId := Some(BubbleId(Some(CHAIN), Some(replies.deployed.value), None)));
        ReplaySnoc(storage, deploying, Store(APP_ID, SavedSession(deployed)));
        AppBubbleStageSaved(storage, deployed, replies.created, deploying + [Store(APP_ID, SavedSession(deployed))]);
      }
    } else {
      AppBubbleStageSaved(storage, keyed, replies.created, saved);
    }
  }

  /** `AppProvisionSavedState` for the bubble stage, from the calls issued before it. */
  lemma AppBubbleStageSaved(storage: map<string, Record>, s: AppSession, created: Outcome, calls: seq<Call>)
    requires s.key.Some? && s.bubbleId.Some?
    requires LoadedSession(Lookup(Replay(storage, calls), APP_ID)) == s
    ensures var p := AppBubbleStage(s, created, calls);
      var saved := LoadedSession(Lookup(Replay(storage, p.calls), APP_ID));
      saved.key == p.session.key &&
      (p.outcome.Pass? ==> saved == p.session) &&
      (p.outcome.Fail? ==>
        saved.bubbleId.Some? && NeedsCreate(saved.bubbleId.value) &&
        saved.bubbleId.value.chain == p.session.bubbleId.value.chain &&
        saved.bubbleId.value.contract == p.session.bubbleId.value.contract)
  {
    var b := s.bubbleId.value;
    if NeedsCreate(b) {
      var named := s.(bubbleId := Some(b.(provider := Some(BUBBLE_PROVIDER))));
      var creating := calls + [CreateBubble(Bubble(named.bubbleId.value, BUBBLE_PROVIDER), None)];
      ReplaySnoc(storage, calls, CreateBubble(Bubble(named.bubbleId.value, BUBBLE_PROVIDER), None));
      if created.Pass? {
        ReplaySnoc(storage, creating, Store(APP_ID, SavedSession(named)));
      }
    }
  }

  /** What the handlers of `_initialiseSession` dispatch once `_initialise` settles with `r`. */
  function Reported(r: Outcome): seq<Dispatch> {
    if r.Pass? then [StateSet(Initialised)] else [StateSet(Failed), ErrorSet(r.error)]
  }

  /**
   * The logs of `_initialiseSession` put together: `initialising` stamped
   * with the call count `n0` before `_initialise`, and every later dispatch
   * with the count `n` it ends with.
   */
  lemma InitialiseLogs(d0: seq<Dispatch>, s0: seq<nat>, n0: nat, n: nat, r: Outcome, tasks: seq<Task>)
    ensures d0 + [StateSet(Initialising)] + (if r.Pass? then [TasksSet(tasks)] else []) + Reported(r) ==
      d0 + InitialiseDispatches(r, tasks)
    ensures s0 + [n0] + (if r.Pass? then [n] else []) + (if r.Pass? then [n] else [n, n]) == s0 + [n0, n, n]
  {
    if r.Pass? {
      assert [StateSet(Initialising)] + [TasksSet(tasks)] + Reported(r) == InitialiseDispatches(r, tasks);
      AppendAssociates(d0 + [StateSet(Initialising)], [TasksSet(tasks)], Reported(r));
      AppendAssociates(d0, [StateSet(Initialising)], [TasksSet(tasks)] + Reported(r));
      AppendAssociates(s0 + [n0], [n], [n]);
      AppendAssociates(s0, [n0], [n, n]);
    } else {
      assert d0 + [StateSet(Initialising)] + [] == d0 + [StateSet(Initialising)];
      AppendAssociates(d0, [StateSet(Initialising)], Reported(r));
      assert s0 + [n0] + [] == s0 + [n0];
      AppendAssociates(s0, [n0], [n, n]);
    }
  }

  /**
   * The controller behind the interface: its state, the session, the bubble
   * once built, the cache of tasks, and the log of dispatches to the state
   * manager. `stamps` records, for each dispatch, how many calls had been
   * issued when it was made, which orders dispatches against calls.
   */
  class TodoListApp {
    const env: Environment
    var state: AppState
    var session: Option<AppSession>
    var bubble: Option<Bubble>
    var tasks: seq<Task>
    var dispatched: seq<Dispatch>
    ghost var stamps: seq<nat>

    constructor (env: Environment)
      ensures this.env == env && state == Closed && session.None? && bubble.None?
      ensures tasks == [] && dispatched == [] && stamps == []
    {
      this.env := env;
      state := Closed;
      session := None;
      bubble := None;
      tasks := [];
      dispatched := [];
      stamps := [];
    }

    /** `stateManager.dispatch`: sends `d`, stamped with the length of the call log. */
    method Emit(d: Dispatch)
      modifies this`dispatched, this`stamps
      ensures dispatched == old(dispatched) + [d] && stamps == old(stamps) + [|env.calls|]
    {
      dispatched := dispatched + [d];
      stamps := stamps + [|env.calls|];
    }

    /** `_setState`: records the state and dispatches it. */
    method SetState(s: AppState)
      modifies this`state, this`dispatched, this`stamps
      ensures state == s && dispatched == old(dispatched) + [StateSet(s)] && stamps == old(stamps) + [|env.calls|]
      ensures session == old(session) && bubble == old(bubble) && tasks == old(tasks)
    {
      state := s;
      Emit(StateSet(s));
    }

    method LoadState()
      modifies this
      ensures session == Some(LoadedSession(Lookup(env.storage, APP_ID)))
      ensures state == old(state) && bubble == old(bubble) && tasks == old(tasks)
      ensures dispatched == old(dispatched) && stamps == old(stamps)
    {
      session := Some(LoadedSession(Lookup(env.storage, APP_ID)));
    }

    method SaveState()
      requires session.Some? && session.value.key.Some?
      modifies env
      ensures env.calls == old(env.calls) + [Store(APP_ID, SavedSession(session.value))]
      ensures env.storage == old(env.storage)[APP_ID := SavedSession(session.value)]
    {
      env.Invoke(Store(APP_ID, SavedSession(session.value)));
    }

    /**
     * `connectWallet`: once the wallet connects, loads the session and
     * initialises it if it records a bubble id, or else reports a new user.
     * A failed connection is reported as an error and nothing is loaded.
     */
    method ConnectWallet(connected: Outcome, replies: Replies, listing: Result<seq<FileId>>, reader: FileId -> Result<TaskContent>)
      returns (ghost p: AppProvisioning, ghost loaded: seq<Task>)
      modifies this, env
      ensures connected.Fail? ==>
        dispatched == old(dispatched) + [ErrorSet(Prefixed(CONNECT_FAILED, connected.error))] &&
        stamps == old(stamps) + [|env.calls|] &&
        env.calls == old(env.calls) + [Connect] && env.storage == old(env.storage) &&
        state == old(state) && session == old(session) && bubble == old(bubble) && tasks == old(tasks)
      ensures var s := LoadedSession(Lookup(old(env.storage), APP_ID));
        connected.Pass? && s.bubbleId.None? ==>
          dispatched == old(dispatched) + [StateSet(New)] && stamps == old(stamps) + [|env.calls|] &&
          state == New && session == Some(s) &&
          env.calls == old(env.calls) + [Connect] && env.storage == old(env.storage) &&
          bubble == old(bubble) && tasks == old(tasks)
      ensures var s := LoadedSession(Lookup(old(env.storage), APP_ID));
        connected.Pass? && s.bubbleId.Some? ==>
          p == AppProvision(Some(s), replies) && session == Some(p.session) &&
          env.storage == Replay(old(env.storage), p.calls) &&
          bubble == (if p.bubble.Some? then p.bubble else old(bubble)) &&
          (p.outcome.Fail? ==> env.calls == old(env.calls) + [Connect] + p.calls && tasks == old(tasks)) &&
          (p.outcome.Pass? ==>
            env.calls == old(env.calls) + [Connect] + p.calls + LoadCalls(p.bubble.value, listing, reader) &&
            Holds(loaded, LoadedEntries(listing, reader)) && tasks == old(tasks) + loaded) &&
          (var r := Settled(p, listing, reader);
           state == (if r.Pass? then Initialised else Failed) &&
           dispatched == old(dispatched) + InitialiseDispatches(r, tasks)) &&
          stamps == old(stamps) + [|old(env.calls)| + 1, |env.calls|, |env.calls|]
    {
      p := AppProvision(Some(LoadedSession(Lookup(env.storage, APP_ID))), replies);
      loaded := [];
      env.Invoke(Connect);
      if connected.Fail? {
        Emit(ErrorSet(Prefixed(CONNECT_FAILED, connected.error)));
        return;
      }
      p, loaded := Connected(replies, listing, reader);
    }

    /**
     * The handler `connectWallet` runs once the wallet connects: loads the
     * session, then initialises it if it records a bubble id, or else
     * reports a new user.
     */
    method Connected(replies: Replies, listing: Result<seq<FileId>>, reader: FileId -> Result<TaskContent>)
      returns (ghost p: AppProvisioning, ghost loaded: seq<Task>)
      modifies this, env
      ensures var s := LoadedSession(Lookup(old(env.storage), APP_ID));
        s.bubbleId.None? ==>
          dispatched == old(dispatched) + [StateSet(New)] && stamps == old(stamps) + [|env.calls|] &&
          state == New && session == Some(s) &&
          env.calls == old(env.calls) && env.storage == old(env.storage) &&
          bubble == old(bubble) && tasks == old(tasks)
      ensures var s := LoadedSession(Lookup(old(env.storage), APP_ID));
        s.bubbleId.Some? ==>
          p == AppProvision(Some(s), replies) && session == Some(p.session) &&
          env.storage == Replay(old(env.storage), p.calls) &&
          bubble == (if p.bubble.Some? then p.bubble else old(bubble)) &&
          (p.outcome.Fail? ==> env.calls == old(env.calls) + p.calls && tasks == old(tasks)) &&
          (p.outcome.Pass? ==>
            env.calls == old(env.calls) + p.calls + LoadCalls(p.bubble.value, listing, reader) &&
            Holds(loaded, LoadedEntries(listing, reader)) && tasks == old(tasks) + loaded) &&
          (var r := Settled(p, listing, reader);
           state == (if r.Pass? then Initialised else Failed) &&
           dispatched == old(dispatched) + InitialiseDispatches(r, tasks)) &&
          stamps == old(stamps) + [|old(env.calls)|, |env.calls|, |env.calls|]
    {
      p := AppProvision(Some(LoadedSession(Lookup(env.storage, APP_ID))), replies);
      loaded := [];
      LoadState();
      if session.value.bubbleId.Some? {
        p, loaded := InitialiseSession(replies, listing, reader);
      } else {
        SetState(New);
      }
    }

    /**
     * `createTodoList`: initialises the session. Initialisation reports its
     * own failures, so the connection error of this operation is never raised.
     */
    method CreateTodoList(replies: Replies, listing: Result<seq<FileId>>, reader: FileId -> Result<TaskContent>)
      returns (ghost p: AppProvisioning, ghost loaded: seq<Task>)
      modifies this, env
      ensures p == AppProvision(old(session), replies) && session == Some(p.session)
      ensures env.storage == Replay(old(env.storage), p.calls)
      ensures bubble == (if p.bubble.Some? then p.bubble else old(bubble))
      ensures p.outcome.Fail? ==> env.calls == old(env.calls) + p.calls && tasks == old(tasks)
      ensures p.outcome.Pass? ==> env.calls == old(env.calls) + p.calls + LoadCalls(p.bubble.value, listing, reader)
      ensures p.outcome.Pass? ==> Holds(loaded, LoadedEntries(listing, reader)) && tasks == old(tasks) + loaded
      ensures var r := Settled(p, listing, reader);
        state == (if r.Pass? then Initialised else Failed) &&
        dispatched == old(dispatched) + InitialiseDispatches(r, tasks)
      ensures stamps == old(stamps) + [|old(env.calls)|, |env.calls|, |env.calls|]
    {
      p, loaded := InitialiseSession(replies, listing, reader);
    }

    /**
     * `_initialiseSession`: reports `initialising`, runs `_initialise`, and
     * then reports `initialised`, or `failed` and the error. It never rejects.
     */
    method InitialiseSession(replies: Replies, listing: Result<seq<FileId>>, reader: FileId -> Result<TaskContent>)
      returns (ghost p: AppProvisioning, ghost loaded: seq<Task>)
      modifies this, env
      ensures p == AppProvision(old(session), replies) && session == Some(p.session)
      ensures env.storage == Replay(old(env.storage), p.calls)
      ensures bubble == (if p.bubble.Some? then p.bubble else old(bubble))
      ensures p.outcome.Fail? ==> env.calls == old(env.calls) + p.calls && tasks == old(tasks)
      ensures p.outcome.Pass? ==> env.calls == old(env.calls) + p.calls + LoadCalls(p.bubble.value, listing, reader)
      ensures p.outcome.Pass? ==> Holds(loaded, LoadedEntries(listing, reader)) && tasks == old(tasks) + loaded
      ensures var r := Settled(p, listing, reader);
        state == (if r.Pass? then Initialised else Failed) &&
        dispatched == old(dispatched) + InitialiseDispatches(r, tasks)
      ensures stamps == old(stamps) + [|old(env.calls)|, |env.calls|, |env.calls|]
    {
      ghost var d0, s0, n0 := dispatched, stamps, |env.calls|;
      SetState(Initialising);
      var r;
      r, p, loaded := Initialise(replies, listing, reader);
      ReportSettled(r);
      InitialiseLogs(d0, s0, n0, |env.calls|, r, tasks);
    }

    /**
     * The handlers `_initialiseSession` attaches to `_initialise`: report
     * `initialised`, or `failed` and then the error.
     */
    method ReportSettled(r: Outcome)
      modifies this`state, this`dispatched, this`stamps
      ensures state == (if r.Pass? then Initialised else Failed)
      ensures dispatched == old(dispatched) + Reported(r)
      ensures stamps == old(stamps) + if r.Pass? then [|env.calls|] else [|env.calls|, |env.calls|]
    {
      if r.Pass? {
        SetState(Initialised);
      } else {
        SetState(Failed);
        Emit(ErrorSet(r.error));
      }
    }

    /**
     * `_initialise`: the provisioning stages, then the load. Loaded tasks are
     * appended to the cache without clearing or sorting it, so tasks read by
     * an earlier attempt stay and a retry appends them again.
     */
    method Initialise(replies: Replies, listing: Result<seq<FileId>>, reader: FileId -> Result<TaskContent>)
      returns (r: Outcome, ghost p: AppProvisioning, ghost loaded: seq<Task>)
      modifies this`session, this`bubble, this`tasks, this`dispatched, this`stamps, env
      ensures p == AppProvision(old(session), replies) && session == Some(p.session)
      ensures r == Settled(p, listing, reader)
      ensures env.storage == Replay(old(env.storage), p.calls)
      ensures state == old(state)
      ensures bubble == (if p.bubble.Some? then p.bubble else old(bubble))
      ensures p.outcome.Fail? ==> env.calls == old(env.calls) + p.calls && tasks == old(tasks)
      ensures p.outcome.Pass? ==> env.calls == old(env.calls) + p.calls + LoadCalls(p.bubble.value, listing, reader)
      ensures p.outcome.Pass? ==> Holds(loaded, LoadedEntries(listing, reader)) && tasks == old(tasks) + loaded
      ensures dispatched == old(dispatched) + (if r.Pass? then [TasksSet(tasks)] else [])
      ensures stamps == old(stamps) + (if r.Pass? then [|env.calls|] else [])
    {
      ghost var storage0 := env.storage;
      p := AppProvision(session, replies);
      loaded := [];
      ghost var issued;
      r, issued := ProvisionContract(replies);
      if r.Fail? {
        return;
      }
      ghost var extra;
      r, extra := BuildBubble(replies.created, issued);
      ReplayAppend(storage0, issued, extra);
      AppendAssociates(old(env.calls), issued, extra);
      if r.Fail? {
        return;
      }
      ghost var calls1 := env.calls;
      assert p.outcome.Pass? && p.bubble == bubble && calls1 == old(env.calls) + p.calls;
      r, loaded := LoadTasks(listing, reader);
      assert env.calls == calls1 + LoadCalls(bubble.value, listing, reader);
    }

    /** The key and contract stages of `_initialise`, each saved once it exists. */
    method ProvisionContract(replies: Replies) returns (r: Outcome, ghost issued: seq<Call>)
      modifies this`session, env
      ensures state == old(state) && bubble == old(bubble) && tasks == old(tasks)
      ensures dispatched == old(dispatched) && stamps == old(stamps)
      ensures env.calls == old(env.calls) + issued
      ensures env.storage == Replay(old(env.storage), issued)
      ensures r.Fail? ==> session.Some? && AppProvision(old(session), replies) == AppProvisioning(session.value, issued, r, None)
      ensures r.Pass? ==>
        session.Some? && session.value.key.Some? && session.value.bubbleId.Some? &&
        AppProvision(old(session), replies) == AppBubbleStage(session.value, replies.created, issued)
    {
      ghost var storage0 := env.storage;
      ghost var saved := EnsureKey(replies.freshKey);
      assert AppProvision(old(session), replies) == AppDeployStage(session.value, replies, saved);
      ghost var deployed;
      r, deployed := DeployContract(replies, saved);
      ReplayAppend(storage0, saved, deployed);
      AppendAssociates(old(env.calls), saved, deployed);
      issued := saved + deployed;
    }

    /**
     * The key stage: with no session or no key, the session becomes one
     * holding only the fresh key, and is saved.
     */
    method EnsureKey(freshKey: Key) returns (ghost saved: seq<Call>)
      modifies this`session, env
      ensures state == old(state) && bubble == old(bubble) && tasks == old(tasks)
      ensures dispatched == old(dispatched) && stamps == old(stamps)
      ensures old(session).Some? && old(session).value.key.Some? ==> session == old(session) && saved == []
      ensures old(session).None? || old(session).value.key.None? ==>
        session == Some(AppSession(None, Some(freshKey), None)) && saved == [Store(APP_ID, SavedSession(session.value))]
      ensures env.calls == old(env.calls) + saved
      ensures env.storage == Replay(old(env.storage), saved)
    {
      saved := [];
      if session.None? || session.value.key.None? {
        session := Some(AppSession(None, Some(freshKey), None));
        SaveState();
        ReplaySnoc(old(env.storage), [], Store(APP_ID, SavedSession(session.value)));
        saved := [Store(APP_ID, SavedSession(session.value))];
      }
    }

    /**
     * The contract stage: with no contract recorded, deploys one on `CHAIN`
     * from the session's key and saves its address; `prior` is what the key
     * stage issued.
     */
    method DeployContract(replies: Replies, ghost prior: seq<Call>) returns (r: Outcome, ghost deployed: seq<Call>)
      requires session.Some? && session.value.key.Some?
      modifies this`session, env
      ensures state == old(state) && bubble == old(bubble) && tasks == old(tasks)
      ensures dispatched == old(dispatched) && stamps == old(stamps)
      ensures env.calls == old(env.calls) + deployed
      ensures env.storage == Replay(old(env.storage), deployed)
      ensures session.Some?
      ensures r.Fail? ==>
        AppDeployStage(old(session.value), replies, prior) == AppProvisioning(session.value, prior + deployed, r, None)
      ensures r.Pass? ==>
        session.value.key.Some? && session.value.bubbleId.Some? &&
        AppDeployStage(old(session.value), replies, prior) == AppBubbleStage(session.value, replies.created, prior + deployed)
    {
      ghost var storage0 := env.storage;
      deployed := [];
      var s := session.value;
      if NeedsDeploy(s.bubbleId) {
        env.Invoke(Deploy(CHAIN, s.key.value));
        ReplaySnoc(storage0, [], Deploy(CHAIN, s.key.value));
        deployed := [Deploy(CHAIN, s.key.value)];
        if replies.deployed.Failure? {
          return Fail(replies.deployed.error), deployed;
        }
        session := Some(s.(bubbleId := Some(BubbleId(Some(CHAIN), Some(replies.deployed.value), None))));
        SaveState();
        ReplaySnoc(storage0, deployed, Store(APP_ID, SavedSession(session.value)));
        deployed := deployed + [Store(APP_ID, SavedSession(session.value))];
        assert prior + deployed == prior + [Deploy(CHAIN, s.key.value)] + [Store(APP_ID, SavedSession(session.value))];
      }
      r := Pass;
    }

    /**
     * The bubble stage of `_initialise`: builds the bubble at
     * `BUBBLE_PROVIDER`, creating it (and saving the provider) when no
     * provider is recorded. The bubble is kept even if creation fails.
     */
    method BuildBubble(created: Outcome, ghost prior: seq<Call>) returns (r: Outcome, ghost extra: seq<Call>)
      requires session.Some? && session.value.key.Some? && session.value.bubbleId.Some?
      modifies this`session, this`bubble, env
      ensures state == old(state) && tasks == old(tasks) && dispatched == old(dispatched) && stamps == old(stamps)
      ensures session.Some? && bubble.Some?
      ensures env.calls == old(env.calls) + extra
      ensures env.storage == Replay(old(env.storage), extra)
      ensures AppBubbleStage(old(session.value), created, prior) == AppProvisioning(session.value, prior + extra, r, bubble)
    {
      ghost var storage0 := env.storage;
      extra := [];
      var b := session.value.bubbleId.value;
      if NeedsCreate(b) {
        session := Some(session.value.(bubbleId := Some(b.(provider := Some(BUBBLE_PROVIDER)))));
        bubble := Some(Bubble(session.value.bubbleId.value, BUBBLE_PROVIDER));
        env.Invoke(CreateBubble(bubble.value, None));
        ReplaySnoc(storage0, extra, CreateBubble(bubble.value, None));
        extra := extra + [CreateBubble(bubble.value, None)];
        r := created;
        if r.Fail? {
          return;
        }
        SaveState();
        ReplaySnoc(storage0, extra, Store(APP_ID, SavedSession(session.value)));
        extra := extra + [Store(APP_ID, SavedSession(session.value))];
      } else {
        bubble := Some(Bubble(b, BUBBLE_PROVIDER));
        r := Pass;
      }
    }

    /**
     * The load of `_initialise`: lists the root directory, appends every task
     * read to the cache, and shows the cache once every read succeeded.
     */
    method LoadTasks(listing: Result<seq<FileId>>, reader: FileId -> Result<TaskContent>)
      returns (r: Outcome, ghost loaded: seq<Task>)
      requires bubble.Some?
      modifies this`tasks, this`dispatched, this`stamps, env
      ensures state == old(state) && session == old(session) && bubble == old(bubble)
      ensures r == LoadOutcome(listing, reader)
      ensures Holds(loaded, LoadedEntries(listing, reader))
      ensures env.calls == old(env.calls) + LoadCalls(bubble.value, listing, reader)
      ensures env.storage == old(env.storage)
      ensures tasks == old(tasks) + loaded
      ensures dispatched == old(dispatched) + (if r.Pass? then [TasksSet(tasks)] else [])
      ensures stamps == old(stamps) + (if r.Pass? then [|env.calls|] else [])
    {
      env.Invoke(List(bubble.value, 0));
      if listing.Failure? {
        r, loaded := Fail(listing.error), [];
        assert LoadCalls(bubble.value, listing, reader) == [List(bubble.value, 0)];
        return;
      }
      var fetched;
      fetched, r := FetchTasks(env, bubble.value, listing.value, reader);
      AppendAssociates(old(env.calls), [List(bubble.value, 0)], ReadCalls(bubble.value, listing.value[..ReadsIssued(listing.value, reader)]));
      loaded := fetched;
      tasks := tasks + fetched;
      if r.Pass? {
        Emit(TasksSet(tasks));
      }
    }

    /**
     * `newTask`: writes a task created at `now`, not done, to the file named
     * by the hash of its content, and appends it and shows the cache once the
     * write succeeds. A failed write, or a missing bubble, is reported as a
     * write error.
     */
    method NewTask(text: string, now: int, hash: TaskContent -> FileId, reply: Outcome)
      modifies this, env
      ensures state == old(state) && session == old(session) && bubble == old(bubble)
      ensures env.storage == old(env.storage)
      ensures bubble.None? ==>
        env.calls == old(env.calls) && tasks == old(tasks) &&
        dispatched == old(dispatched) + [ErrorSet(Prefixed(WRITE_FAILED, UndefinedBubble("write")))]
      ensures bubble.Some? ==>
        env.calls == old(env.calls) + [Write(bubble.value, hash(NewContent(now, text)), NewContent(now, text))]
      ensures bubble.Some? && reply.Pass? ==>
        |tasks| == |old(tasks)| + 1 && tasks[..|old(tasks)|] == old(tasks) &&
        fresh(tasks[|old(tasks)|]) &&
        tasks[|old(tasks)|].fileId == hash(NewContent(now, text)) &&
        tasks[|old(tasks)|].Content() == NewContent(now, text) &&
        dispatched == old(dispatched) + [TasksSet(tasks)]
      ensures bubble.Some? && reply.Fail? ==>
        tasks == old(tasks) && dispatched == old(dispatched) + [ErrorSet(Prefixed(WRITE_FAILED, reply.error))]
      ensures stamps == old(stamps) + [|env.calls|]
    {
      var content := NewContent(now, text);
      var task := new Task(hash(content), content);
      var r := SaveTask(task, reply);
      if r.Pass? {
        tasks := tasks + [task];
        Emit(TasksSet(tasks));
      } else {
        Emit(ErrorSet(Prefixed(WRITE_FAILED, r.error)));
      }
    }

    /**
     * `toggleTask`: flips `done` in place before the write, and leaves it
     * flipped whether or not the write succeeds; shows the cache on success
     * and reports a write error otherwise.
     */
    method ToggleTask(task: Task, reply: Outcome)
      modifies this, env, task
      ensures task.done == !old(task.done)
      ensures state == old(state) && session == old(session) && bubble == old(bubble) && tasks == old(tasks)
      ensures env.storage == old(env.storage)
      ensures bubble.None? ==>
        env.calls == old(env.calls) &&
        dispatched == old(dispatched) + [ErrorSet(Prefixed(WRITE_FAILED, UndefinedBubble("write")))]
      ensures bubble.Some? ==>
        env.calls == old(env.calls) + [Write(bubble.value, task.fileId, task.Content())] &&
        dispatched == old(dispatched) + [if reply.Pass? then TasksSet(tasks) else ErrorSet(Prefixed(WRITE_FAILED, reply.error))]
      ensures stamps == old(stamps) + [|env.calls|]
    {
      task.done := !task.done;
      var r := SaveTask(task, reply);
      if r.Pass? {
        Emit(TasksSet(tasks));
      } else {
        Emit(ErrorSet(Prefixed(WRITE_FAILED, r.error)));
      }
    }

    /**
     * `deleteTask`: deletes the task's file, then drops every task with its
     * file id from the cache and shows it; a failed delete is reported. With
     * no bubble the call itself rejects and nothing is reported.
     */
    method DeleteTask(task: Task, reply: Outcome) returns (r: Outcome)
      modifies this, env
      ensures state == old(state) && session == old(session) && bubble == old(bubble)
      ensures env.storage == old(env.storage)
      ensures bubble.None? ==>
        r == Fail(UndefinedBubble("delete")) &&
        env.calls == old(env.calls) && tasks == old(tasks) && dispatched == old(dispatched) && stamps == old(stamps)
      ensures bubble.Some? ==> r == Pass && env.calls == old(env.calls) + [Delete(bubble.value, task.fileId)]
      ensures bubble.Some? && reply.Pass? ==>
        tasks == Without(old(tasks), task.fileId) && dispatched == old(dispatched) + [TasksSet(tasks)]
      ensures bubble.Some? && reply.Fail? ==>
        tasks == old(tasks) && dispatched == old(dispatched) + [ErrorSet(Prefixed(DELETE_FAILED, reply.error))]
      ensures bubble.Some? ==> stamps == old(stamps) + [|env.calls|]
    {
      if bubble.None? {
        return Fail(UndefinedBubble("delete"));
      }
      env.Invoke(Delete(bubble.value, task.fileId));
      if reply.Pass? {
        tasks := Without(tasks, task.fileId);
        Emit(TasksSet(tasks));
      } else {
        Emit(ErrorSet(Prefixed(DELETE_FAILED, reply.error)));
      }
      r := Pass;
    }

    /** `_saveTask`: writes every field but the file id to the task's file; rejects when there is no bubble. */
    method SaveTask(task: Task, reply: Outcome) returns (r: Outcome)
      modifies env
      ensures env.storage == old(env.storage)
      ensures bubble.None? ==> r == Fail(UndefinedBubble("write")) && env.calls == old(env.calls)
      ensures bubble.Some? ==> r == reply && env.calls == old(env.calls) + [Write(bubble.value, task.fileId, task.Content())]
    {
      if bubble.None? {
        return Fail(UndefinedBubble("write"));
      }
      env.Invoke(Write(bubble.value, task.fileId, task.Content()));
      r := reply;
    }
  }
}
