/**
 * A session: the locally saved identity of one wallet account (a signing key
 * and the id of its bubble) and the staged provisioning that takes it from no
 * key, to a key, to a deployed contract, to a created bubble, and then loads
 * the task list. The record is saved after every stage, so a failed attempt
 * resumes at the first stage that did not complete.
 */
module Sessions {
  import opened Common
  import opened Tasks

  const STATE_VERSION := 2

  /** The session's persisted fields as held in memory. */
  datatype SessionState = SessionState(key: Option<Key>, bubbleId: Option<BubbleId>)

  /** Where a session lives: its storage name, the chain it deploys to, and the bubble host it creates its bubble on. */
  datatype Config = Config(id: string, chainId: int, bubbleProvider: string)

  /**
   * The record the session saves: the current version, the serialised
   * private key and the bubble id. Restoring it gives back the same state.
   */
  function Persisted(s: SessionState): (r: Record)
    requires s.key.Some?
    ensures r.version == Some(STATE_VERSION)
    ensures Restored(Some(r)) == s
  {
    Record(Some(STATE_VERSION), Some(s.key.value.privateKey), s.bubbleId)
  }

  /**
   * The state loaded from what local storage holds (nothing, for a new
   * session). A record with no version predates the current bubble host, so
   * its bubble id is dropped; its key is kept.
   */
  function Restored(stored: Option<Record>): (s: SessionState)
    ensures stored.None? ==> s == SessionState(None, None)
    ensures stored.Some? && stored.value.version.None? ==> s.bubbleId.None?
    ensures stored.Some? && stored.value.version.Some? ==> s.bubbleId == stored.value.bubbleId
    ensures stored.Some? && Truthy(stored.value.key) ==> s.key.Some? && s.key.value.privateKey == stored.value.key.value
    ensures stored.Some? && !Truthy(stored.value.key) ==> s.key.None?
  {
    var data := if stored.Some? then stored.value else Record(None, None, None);
    var bubbleId := if data.version.None? then None else data.bubbleId;
    SessionState(if Truthy(data.key) then Some(Key(data.key.value)) else None, bubbleId)
  }

  /** `isNew`: no contract address is recorded yet. */
  predicate IsNew(s: SessionState): (r: bool)
    ensures r ==> NeedsDeploy(s.bubbleId)
    ensures !r ==> s.bubbleId.Some? && s.bubbleId.value.contract.Some?
  {
    s.bubbleId.None? || s.bubbleId.value.contract.None?
  }

  /** The deploy stage runs when there is no bubble id or its contract address is falsy. */
  predicate NeedsDeploy(b: Option<BubbleId>): (r: bool)
    ensures r <==> b.None? || b.value.contract.None? || b.value.contract == Some("")
  {
    b.None? || !Truthy(b.value.contract)
  }

  /** The bubble stage creates the bubble when the provider URL is falsy. */
  predicate NeedsCreate(b: BubbleId): (r: bool)
    ensures r <==> b.provider.None? || b.provider == Some("")
  {
    !Truthy(b.provider)
  }

  /**
   * The replies of the outside world to one provisioning attempt: the key a
   * new session would generate, the wallet's reply to the deployment and the
   * host's reply to the creation of the bubble.
   */
  datatype Replies = Replies(freshKey: Key, deployed: Result<DeployedAddress>, created: Outcome)

  /**
   * The result of the provisioning stages: the state in memory, the calls
   * issued (saves included), how the stages settled, and the bubble the task
   * list was built on if the bubble stage was reached.
   */
  datatype Provisioning = Provisioning(state: SessionState, calls: seq<Call>, outcome: Outcome, bubble: Option<Bubble>)

  /**
   * The stages of `initialise` before the task list is loaded: create and
   * save a key if there is none; deploy the contract and save if no contract
   * is recorded; then build the task list, creating the bubble and saving if
   * no provider is recorded. A stage that fails ends the attempt.
   */
  function Provision(s: SessionState, cfg: Config, replies: Replies): (p: Provisioning)
    ensures p.state.key == if s.key.Some? then s.key else Some(replies.freshKey)
    ensures p.bubble.Some? <==> !NeedsDeploy(s.bubbleId) || replies.deployed.Success?
    ensures p.bubble.Some? ==> p.state.bubbleId == Some(p.bubble.value.id)
    ensures p.outcome.Pass? ==> p.bubble.Some?
  {
    var keyed := if s.key.None? then s.(key := Some(replies.freshKey)) else s;
    var saved := if s.key.None? then [Store(cfg.id, Persisted(keyed))] else [];
    DeployStage(keyed, cfg, replies, saved)
  }

  /**
   * The stages after the key, `calls` being what was issued before: deploy
   * the contract when none is recorded, save its address, then go on to the
   * bubble. A failed deployment ends the attempt with no bubble.
   */
  function DeployStage(s: SessionState, cfg: Config, replies: Replies, calls: seq<Call>): (p: Provisioning)
    requires s.key.Some?
    ensures p.state.key == s.key
    ensures p.bubble.Some? <==> !NeedsDeploy(s.bubbleId) || replies.deployed.Success?
    ensures p.bubble.None? ==> p.state == s && p.outcome.Fail?
    ensures p.bubble.Some? ==> p.state.bubbleId == Some(p.bubble.value.id) && Truthy(p.state.bubbleId.value.contract)
  {
    if NeedsDeploy(s.bubbleId) then
      var deploying := calls + [Deploy(cfg.chainId, s.key.value)];
      match replies.deployed
      case Failure(e) => Provisioning(s, deploying, Fail(e), None)
      case Success(address) =>
        var deployed := s.(bubbleId := Some(BubbleId(Some(cfg.chainId), Some(address), None)));
        BubbleStage(deployed, cfg, replies.created, deploying + [Store(cfg.id, Persisted(deployed))])
    else
      BubbleStage(s, cfg, replies.created, calls)
  }

  /**
   * The last stage. The provider is set in memory before the bubble is
   * created, but saved only once the creation succeeds.
   */
  function BubbleStage(s: SessionState, cfg: Config, created: Outcome, calls: seq<Call>): (p: Provisioning)
    requires s.key.Some? && s.bubbleId.Some?
    ensures p.state.key == s.key && p.bubble.Some? && p.state.bubbleId == Some(p.bubble.value.id)
    ensures p.state.bubbleId.value.chain == s.bubbleId.value.chain
    ensures p.state.bubbleId.value.contract == s.bubbleId.value.contract
    ensures NeedsCreate(s.bubbleId.value) ==>
      p.outcome == created && p.state.bubbleId.value.provider == Some(cfg.bubbleProvider) &&
      CreateBubble(p.bubble.value, MergedSilent(None)) in p.calls
    ensures NeedsCreate(s.bubbleId.value) && created.Pass? ==> p.calls[|p.calls| - 1] == Store(cfg.id, Persisted(p.state))
    ensures !NeedsCreate(s.bubbleId.value) ==> p.outcome.Pass? && p.calls == calls && p.state == s
  {
    var b := s.bubbleId.value;
    if NeedsCreate(b) then
      var named := s.(bubbleId := Some(b.(provider := Some(cfg.bubbleProvider))));
      var bubble := Bubble(named.bubbleId.value, cfg.bubbleProvider);
      var creating := calls + [CreateBubble(bubble, MergedSilent(None))];
      match created
      case Fail(e) => Provisioning(named, creating, Fail(e), Some(bubble))
      case Pass => Provisioning(named, creating + [Store(cfg.id, Persisted(named))], Pass, Some(bubble))
    else
      Provisioning(s, calls, Pass, Some(Bubble(b, b.provider.value)))
  }

  /** `isNew` and the deploy stage's test agree except on an empty contract address, which is not new but is redeployed. */
  lemma IsNewVersusNeedsDeploy(s: SessionState)
    ensures IsNew(s) ==> NeedsDeploy(s.bubbleId)
    ensures NeedsDeploy(s.bubbleId) && !IsNew(s) <==> s.bubbleId.Some? && s.bubbleId.value.contract == Some("")
  {
  }

  /**
   * Provisioning that settles successfully leaves a complete session: a key,
   * a contract address and a provider, and the task list's bubble is the one
   * the session records, reached at the recorded provider (given a
   * non-empty configured provider).
   */
  lemma ProvisionPassComplete(s: SessionState, cfg: Config, replies: Replies)
    requires cfg.bubbleProvider != ""
    ensures var p := Provision(s, cfg, replies);
      p.outcome.Pass? ==>
        p.state.key.Some? && p.state.bubbleId.Some? &&
        Truthy(p.state.bubbleId.value.contract) && Truthy(p.state.bubbleId.value.provider) &&
        p.bubble == Some(Bubble(p.state.bubbleId.value, p.state.bubbleId.value.provider.value))
  {
  }

  /**
   * The task list is built exactly when the contract stage succeeded (or was
   * skipped), and it is built on the bubble id the session holds.
   */
  lemma ProvisionBuildsOnRecordedBubble(s: SessionState, cfg: Config, replies: Replies)
    ensures var p := Provision(s, cfg, replies);
      (p.bubble.None? <==> p.outcome.Fail? && NeedsDeploy(s.bubbleId) && replies.deployed.Failure?) &&
      (p.bubble.Some? ==> p.state.bubbleId == Some(p.bubble.value.id) && Truthy(p.state.bubbleId.value.contract))
  {
  }

  /** A session that has a key keeps it: provisioning never generates a second one. */
  lemma ProvisionKeepsKey(s: SessionState, cfg: Config, replies: Replies)
    ensures var p := Provision(s, cfg, replies);
      p.state.key.Some? &&
      (s.key.Some? ==> p.state.key == s.key) &&
      (s.key.None? ==> p.state.key == Some(replies.freshKey) && p.calls[0] == Store(cfg.id, Persisted(SessionState(Some(replies.freshKey), s.bubbleId))))
  {
  }

  /** The bubble stage only adds calls: whatever was issued before it is still in the log. */
  lemma BubbleStageKeepsCalls(s: SessionState, cfg: Config, created: Outcome, calls: seq<Call>, c: Call)
    requires s.key.Some? && s.bubbleId.Some? && c in calls
    ensures c in BubbleStage(s, cfg, created, calls).calls
  {
  }

  /**
   * Whenever no contract is recorded a deployment with the session's key is
   * issued, whatever the wallet replies; with a recorded contract none is.
   */
  lemma {:induction false} ProvisionDeploysWhenMissing(s: SessionState, cfg: Config, replies: Replies)
    ensures var p := Provision(s, cfg, replies);
      (NeedsDeploy(s.bubbleId) ==> Deploy(cfg.chainId, p.state.key.value) in p.calls) &&
      (!NeedsDeploy(s.bubbleId) ==> forall c :: c in p.calls ==> !c.Deploy?)
  {
    var keyed := if s.key.None? then s.(key := Some(replies.freshKey)) else s;
    var saved := if s.key.None? then [Store(cfg.id, Persisted(keyed))] else [];
    var p := Provision(s, cfg, replies);
    if NeedsDeploy(s.bubbleId) {
      var deploying := saved + [Deploy(cfg.chainId, keyed.key.value)];
      assert Deploy(cfg.chainId, keyed.key.value) in deploying + [Store(cfg.id, Persisted(keyed))];
      if replies.deployed.Success? {
        var deployed := keyed.(bubbleId := Some(BubbleId(Some(cfg.chainId), Some(replies.deployed.value), None)));
        BubbleStageKeepsCalls(deployed, cfg, replies.created, deploying + [Store(cfg.id, Persisted(deployed))], Deploy(cfg.chainId, keyed.key.value));
      }
    } else {
      ProvisionNoRedeploy(s, cfg, replies);
    }
  }

  /** A recorded contract is never redeployed: no deployment is issued and the address is kept. */
  lemma ProvisionNoRedeploy(s: SessionState, cfg: Config, replies: Replies)
    requires !NeedsDeploy(s.bubbleId)
    ensures var p := Provision(s, cfg, replies);
      (forall c :: c in p.calls ==> !c.Deploy?) &&
      p.state.bubbleId.Some? && p.state.bubbleId.value.contract == s.bubbleId.value.contract &&
      p.state.bubbleId.value.chain == s.bubbleId.value.chain
  {
  }

  /** A fully provisioned session issues no call at all before loading its tasks. */
  lemma ProvisionedGoesStraightToLoad(s: SessionState, cfg: Config, replies: Replies)
    requires s.key.Some? && s.bubbleId.Some?
    requires Truthy(s.bubbleId.value.contract) && Truthy(s.bubbleId.value.provider)
    ensures var p := Provision(s, cfg, replies);
      p == Provisioning(s, [], Pass, Some(Bubble(s.bubbleId.value, s.bubbleId.value.provider.value)))
  {
  }

  /**
   * A deployment replaces whatever bubble id was recorded with one holding
   * only the configured chain and the new address (and then the configured
   * provider), and it is issued by the session's key on the configured chain.
   */
  lemma ProvisionRecordsDeployment(s: SessionState, cfg: Config, replies: Replies)
    requires NeedsDeploy(s.bubbleId) && replies.deployed.Success?
    ensures var p := Provision(s, cfg, replies);
      p.state.bubbleId == Some(BubbleId(Some(cfg.chainId), Some(replies.deployed.value), Some(cfg.bubbleProvider))) &&
      Deploy(cfg.chainId, p.state.key.value) in p.calls
  {
    var p := Provision(s, cfg, replies);
    var saved := if s.key.None? then [Store(cfg.id, Persisted(s.(key := Some(replies.freshKey))))] else [];
    assert p.calls[|saved|] == Deploy(cfg.chainId, p.state.key.value);
  }

  /**
   * What a later session restores after one provisioning attempt, when local
   * storage agreed with memory before it: the key and the contract are as
   * in memory, and so is the provider unless creating the bubble failed, in
   * which case the provider restored is still falsy and creation is retried.
   */
  lemma ProvisionSavedState(storage: map<string, Record>, s: SessionState, cfg: Config, replies: Replies)
    requires Restored(Lookup(storage, cfg.id)) == s
    ensures var p := Provision(s, cfg, replies);
      var saved := Restored(Lookup(Replay(storage, p.calls), cfg.id));
      saved.key == p.state.key &&
      (p.outcome.Pass? || p.bubble.None? ==> saved == p.state) &&
      (p.outcome.Fail? && p.bubble.Some? ==>
        saved.bubbleId.Some? && NeedsCreate(saved.bubbleId.value) &&
        saved.bubbleId.value.chain == p.state.bubbleId.value.chain &&
        saved.bubbleId.value.contract == p.state.bubbleId.value.contract)
  {
    var keyed := if s.key.None? then s.(key := Some(replies.freshKey)) else s;
    var saved := if s.key.None? then [Store(cfg.id, Persisted(keyed))] else [];
    if s.key.None? {
      ReplaySnoc(storage, [], Store(cfg.id, Persisted(keyed)));
      assert [] + saved == saved;
    }
    assert Restored(Lookup(Replay(storage, saved), cfg.id)) == keyed;
    if NeedsDeploy(keyed.bubbleId) {
      var deploying := saved + [Deploy(cfg.chainId, keyed.key.value)];
      ReplaySnoc(storage, saved, Deploy(cfg.chainId, keyed.key.value));
      if replies.deployed.Success? {
        var deployed := keyed.(bubbleId := Some(BubbleId(Some(cfg.chainId), Some(replies.deployed.value), None)));
        ReplaySnoc(storage, deploying, Store(cfg.id, Persisted(deployed)));
        BubbleStageSaved(storage, deployed, cfg, replies.created, deploying + [Store(cfg.id, Persisted(deployed))]);
      }
    } else {
      BubbleStageSaved(storage, keyed, cfg, replies.created, saved);
    }
  }

  /** `ProvisionSavedState` for the bubble stage, from the calls issued before it. */
  lemma BubbleStageSaved(storage: map<string, Record>, s: SessionState, cfg: Config, created: Outcome, calls: seq<Call>)
    requires s.key.Some? && s.bubbleId.Some?
    requires Restored(Lookup(Replay(storage, calls), cfg.id)) == s
    ensures var p := BubbleStage(s, cfg, created, calls);
      var saved := Restored(Lookup(Replay(storage, p.calls), cfg.id));
      saved.key == p.state.key &&
      (p.outcome.Pass? ==> saved == p.state) &&
      (p.outcome.Fail? ==>
        saved.bubbleId.Some? && NeedsCreate(saved.bubbleId.value) &&
        saved.bubbleId.value.chain == p.state.bubbleId.value.chain &&
        saved.bubbleId.value.contract == p.state.bubbleId.value.contract)
  {
    var b := s.bubbleId.value;
    if NeedsCreate(b) {
      var named := s.(bubbleId := Some(b.(provider := Some(cfg.bubbleProvider))));
      var creating := calls + [CreateBubble(Bubble(named.bubbleId.value, cfg.bubbleProvider), MergedSilent(None))];
      ReplaySnoc(storage, calls, CreateBubble(Bubble(named.bubbleId.value, cfg.bubbleProvider), MergedSilent(None)));
      if created.Pass? {
        ReplaySnoc(storage, creating, Store(cfg.id, Persisted(named)));
      }
    }
  }

  /**
   * Retrying after a failed attempt resumes where it stopped: the key is not
   * generated again, and a contract deployed by the first attempt is not
   * deployed again.
   */
  lemma RetryResumes(storage: map<string, Record>, s: SessionState, cfg: Config, first: Replies, second: Replies)
    requires Restored(Lookup(storage, cfg.id)) == s
    ensures var p1 := Provision(s, cfg, first);
      var p2 := Provision(Restored(Lookup(Replay(storage, p1.calls), cfg.id)), cfg, second);
      p2.state.key == p1.state.key &&
      (p1.bubble.Some? ==> forall c :: c in p2.calls ==> !c.Deploy?)
  {
    var p1 := Provision(s, cfg, first);
    var s1 := Restored(Lookup(Replay(storage, p1.calls), cfg.id));
    ProvisionSavedState(storage, s, cfg, first);
    ProvisionKeepsKey(s, cfg, first);
    ProvisionKeepsKey(s1, cfg, second);
    if p1.bubble.Some? {
      ProvisionBuildsOnRecordedBubble(s, cfg, first);
      ProvisionNoRedeploy(s1, cfg, second);
    }
  }

  /**
   * After a failed creation, memory and local storage disagree on the
   * provider: memory holds the configured one, local storage the old falsy
   * one. So a retry on the same session skips creating the bubble, while a
   * session restored from local storage creates it first.
   */
  lemma FailedCreateDivergence(storage: map<string, Record>, s: SessionState, cfg: Config, first: Replies, second: Replies)
    requires cfg.bubbleProvider != ""
    requires Restored(Lookup(storage, cfg.id)) == s
    ensures var p1 := Provision(s, cfg, first);
      var restored := Restored(Lookup(Replay(storage, p1.calls), cfg.id));
      p1.outcome.Fail? && p1.bubble.Some? ==>
        Truthy(p1.state.bubbleId.value.provider) &&
        (forall c :: c in Provision(p1.state, cfg, second).calls ==> !c.CreateBubble?) &&
        |Provision(restored, cfg, second).calls| > 0 &&
        Provision(restored, cfg, second).calls[0].CreateBubble?
  {
    var p1 := Provision(s, cfg, first);
    if p1.outcome.Fail? && p1.bubble.Some? {
      ProvisionBuildsOnRecordedBubble(s, cfg, first);
      ProvisionSavedState(storage, s, cfg, first);
      var restored := Restored(Lookup(Replay(storage, p1.calls), cfg.id));
      assert restored.key.Some? && !NeedsDeploy(restored.bubbleId) && NeedsCreate(restored.bubbleId.value);
      assert Provision(restored, cfg, second) == BubbleStage(restored, cfg, second.created, []);
      assert Truthy(p1.state.bubbleId.value.provider);
      ProvisionedGoesStraightToLoad(p1.state, cfg, second);
    }
  }

  /**
   * A record saved before versioning keeps its key but loses its bubble id,
   * so the next provisioning deploys a new contract with that same key.
   */
  lemma LegacyRecordRedeploys(rec: Record, cfg: Config, replies: Replies)
    requires rec.version.None? && Truthy(rec.key)
    ensures var p := Provision(Restored(Some(rec)), cfg, replies);
      p.calls[0] == Deploy(cfg.chainId, Key(rec.key.value)) && p.state.key == Some(Key(rec.key.value))
  {
  }

  const NOT_INITIALISED := Error("session not initialised")

  /**
   * An instance of the app bound to one saved state: the session id names the
   * local-storage item, and the state is loaded on construction.
   */
  class Session {
    const id: string
    const chainId: int
    const bubbleProvider: string
    const env: Environment
    var key: Option<Key>
    var bubbleId: Option<BubbleId>
    var taskList: TaskList?

    /** The task list, once built, talks through the session's environment. */
    ghost predicate Valid()
      reads this, taskList
    {
      taskList != null ==> taskList.env == env
    }

    function State(): SessionState
      reads this
    {
      SessionState(key, bubbleId)
    }

    function Cfg(): Config {
      Config(id, chainId, bubbleProvider)
    }

    constructor (id: string, chainId: int, bubbleProvider: string, env: Environment)
      ensures this.id == id && this.chainId == chainId && this.bubbleProvider == bubbleProvider && this.env == env
      ensures State() == Restored(Lookup(env.storage, id))
      ensures taskList == null && Valid()
    {
      this.id := id;
      this.chainId := chainId;
      this.bubbleProvider := bubbleProvider;
      this.env := env;
      taskList := null;
      new;
      LoadState();
    }

    /** `_loadState`: reads the record saved under the session id, dropping a legacy record's bubble id. */
    method LoadState()
      modifies this
      ensures State() == Restored(Lookup(env.storage, id))
      ensures taskList == old(taskList)
    {
      var restored := Restored(Lookup(env.storage, id));
      key := restored.key;
      bubbleId := restored.bubbleId;
    }

    /** `_saveState`: writes the current version, the private key and the bubble id under the session id. */
    method SaveState()
      requires key.Some?
      modifies env
      ensures env.calls == old(env.calls) + [Store(id, Persisted(State()))]
      ensures env.storage == old(env.storage)[id := Persisted(State())]
    {
      env.Invoke(Store(id, Persisted(State())));
    }

    /** `isNew`: true when the contract has not been deployed, in which case initialising deploys it. */
    function IsNewSession(): (r: bool)
      reads this
      ensures r ==> NeedsDeploy(bubbleId)
      ensures !r ==> bubbleId.Some? && bubbleId.value.contract.Some?
    {
      IsNew(State())
    }

    /**
     * `initialise`: runs the missing provisioning stages in order, saving
     * after each, and then loads the task list from the bubble. The task list
     * is built before the bubble is created, so it exists even when creation
     * or loading fails.
     */
    method Initialise(replies: Replies, listing: Result<seq<FileId>>, reader: FileId -> Result<TaskContent>)
      returns (r: Outcome, ghost p: Provisioning, ghost loaded: seq<Task>)
      requires Valid()
      modifies this, env
      ensures Valid()
      ensures p == Provision(old(State()), Cfg(), replies)
      ensures State() == p.state
      ensures env.storage == Replay(old(env.storage), p.calls)
      ensures p.bubble.None? ==> r == p.outcome && taskList == old(taskList) && env.calls == old(env.calls) + p.calls
      ensures p.bubble.Some? ==> taskList != null && fresh(taskList) && taskList.env == env && taskList.bubble == p.bubble.value
      ensures p.bubble.Some? && p.outcome.Fail? ==> r == p.outcome && taskList.tasks == [] && env.calls == old(env.calls) + p.calls
      ensures p.outcome.Pass? ==> r == LoadOutcome(listing, reader)
      ensures p.outcome.Pass? ==> env.calls == old(env.calls) + p.calls + LoadCalls(p.bubble.value, listing, reader)
      ensures p.outcome.Pass? ==> Holds(loaded, LoadedEntries(listing, reader))
      ensures p.outcome.Pass? && r.Pass? ==> SortedByCreated(taskList.tasks) && multiset(taskList.tasks) == multiset(loaded)
      ensures p.outcome.Pass? && r.Fail? ==> taskList.tasks == loaded
    {
      p, r := Provisioned(replies);
      loaded := [];
      if r.Fail? {
        return;
      }
      ghost var calls1 := env.calls;
      r, loaded := taskList.Initialise(listing, reader);
      assert env.calls == calls1 + LoadCalls(taskList.bubble, listing, reader);
    }

    /** The provisioning stages of `initialise`, up to the load. */
    method Provisioned(replies: Replies) returns (ghost p: Provisioning, r: Outcome)
      requires Valid()
      modifies this, env
      ensures Valid()
      ensures p == Provision(old(State()), Cfg(), replies)
      ensures State() == p.state && r == p.outcome
      ensures env.calls == old(env.calls) + p.calls
      ensures env.storage == Replay(old(env.storage), p.calls)
      ensures p.bubble.None? ==> taskList == old(taskList)
      ensures p.bubble.Some? ==>
        taskList != null && fresh(taskList) && taskList.env == env &&
        taskList.bubble == p.bubble.value && taskList.tasks == []
    {
      ghost var storage0 := env.storage;
      p := Provision(State(), Cfg(), replies);
      ghost var issued;
      r, issued := ProvisionContract(replies);
      if r.Fail? {
        return;
      }
      ghost var contracted := State();
      assert p == BubbleStage(contracted, Cfg(), replies.created, issued);
      ghost var extra;
      r, extra := BuildTaskList(replies.created, issued);
      assert p == Provisioning(State(), issued + extra, r, Some(taskList.bubble));
      ReplayAppend(storage0, issued, extra);
      AppendAssociates(old(env.calls), issued, extra);
    }

    /** Stages 1 and 2 of `initialise`: the key and the contract, each saved once it exists. */
    method ProvisionContract(replies: Replies) returns (r: Outcome, ghost issued: seq<Call>)
      modifies this, env
      ensures taskList == old(taskList)
      ensures env.calls == old(env.calls) + issued
      ensures env.storage == Replay(old(env.storage), issued)
      ensures r.Fail? ==> Provision(old(State()), Cfg(), replies) == Provisioning(State(), issued, r, None)
      ensures r.Pass? ==>
        key.Some? && bubbleId.Some? &&
        Provision(old(State()), Cfg(), replies) == BubbleStage(State(), Cfg(), replies.created, issued)
    {
      ghost var storage0 := env.storage;
      ghost var s0 := State();
      ghost var saved := EnsureKey(replies.freshKey);
      ghost var keyed := State();
      assert keyed == if s0.key.Some? then s0 else s0.(key := Some(replies.freshKey));
      assert Provision(s0, Cfg(), replies) == DeployStage(keyed, Cfg(), replies, saved);
      ghost var deployed;
      r, deployed := DeployContract(replies, saved);
      ReplayAppend(storage0, saved, deployed);
      AppendAssociates(old(env.calls), saved, deployed);
      issued := saved + deployed;
    }

    /** Stage 1 of `initialise`: a session without a key gets the fresh one and saves it. */
    method EnsureKey(freshKey: Key) returns (ghost saved: seq<Call>)
      modifies this, env
      ensures key == if old(key).Some? then old(key) else Some(freshKey)
      ensures bubbleId == old(bubbleId) && taskList == old(taskList)
      ensures saved == if old(key).Some? then [] else [Store(id, Persisted(State()))]
      ensures env.calls == old(env.calls) + saved
      ensures env.storage == Replay(old(env.storage), saved)
    {
      saved := [];
      if key.None? {
        key := Some(freshKey);
        SaveState();
        ReplaySnoc(old(env.storage), [], Store(id, Persisted(State())));
        saved := [Store(id, Persisted(State()))];
      }
    }

    /**
     * Stage 2 of `initialise`: with no contract recorded, deploys one from the
     * session's key and saves its address; `prior` is what stage 1 issued.
     */
    method DeployContract(replies: Replies, ghost prior: seq<Call>) returns (r: Outcome, ghost deployed: seq<Call>)
      requires key.Some?
      modifies this, env
      ensures taskList == old(taskList)
      ensures env.calls == old(env.calls) + deployed
      ensures env.storage == Replay(old(env.storage), deployed)
      ensures r.Fail? ==> DeployStage(old(State()), Cfg(), replies, prior) == Provisioning(State(), prior + deployed, r, None)
      ensures r.Pass? ==>
        key.Some? && bubbleId.Some? &&
        DeployStage(old(State()), Cfg(), replies, prior) == BubbleStage(State(), Cfg(), replies.created, prior + deployed)
    {
      ghost var storage0 := env.storage;
      deployed := [];
      if NeedsDeploy(bubbleId) {
        env.Invoke(Deploy(chainId, key.value));
        ReplaySnoc(storage0, [], Deploy(chainId, key.value));
        deployed := [Deploy(chainId, key.value)];
        if replies.deployed.Failure? {
          return Fail(replies.deployed.error), deployed;
        }
        bubbleId := Some(BubbleId(Some(chainId), Some(replies.deployed.value), None));
        SaveState();
        ReplaySnoc(storage0, deployed, Store(id, Persisted(State())));
        deployed := deployed + [Store(id, Persisted(State()))];
        assert prior + deployed == prior + [Deploy(chainId, key.value)] + [Store(id, Persisted(State()))];
      }
      r := Pass;
    }

    /**
     * Stage 3 of `initialise`: builds the task list on the bubble, creating
     * the bubble (and saving the provider) when no provider is recorded.
     */
    method BuildTaskList(created: Outcome, ghost prior: seq<Call>) returns (r: Outcome, ghost extra: seq<Call>)
      requires key.Some? && bubbleId.Some?
      modifies this, env
      ensures taskList != null && fresh(taskList) && taskList.env == env && taskList.tasks == []
      ensures env.calls == old(env.calls) + extra
      ensures env.storage == Replay(old(env.storage), extra)
      ensures BubbleStage(old(State()), Cfg(), created, prior) == Provisioning(State(), prior + extra, r, Some(taskList.bubble))
    {
      ghost var storage0 := env.storage;
      extra := [];
      if NeedsCreate(bubbleId.value) {
        bubbleId := Some(bubbleId.value.(provider := Some(bubbleProvider)));
        taskList := new TaskList(env, Bubble(bubbleId.value, bubbleProvider));
        r := taskList.Create(None, created);
        ReplaySnoc(storage0, extra, CreateBubble(taskList.bubble, MergedSilent(None)));
        extra := extra + [CreateBubble(taskList.bubble, MergedSilent(None))];
        if r.Fail? {
          return;
        }
        SaveState();
        ReplaySnoc(storage0, extra, Store(id, Persisted(State())));
        extra := extra + [Store(id, Persisted(State()))];
      } else {
        taskList := new TaskList(env, Bubble(bubbleId.value, bubbleId.value.provider.value));
        r := Pass;
      }
    }

    /** Forwarded to the task list; rejects when there is none. */
    method CreateTask(text: string, now: int, hash: TaskContent -> FileId, reply: Outcome) returns (r: Outcome)
      requires Valid()
      modifies env, taskList
      ensures taskList == null ==> r == Fail(NOT_INITIALISED) && env.calls == old(env.calls)
      ensures taskList != null ==>
        r == reply &&
        env.calls == old(env.calls) + [Write(taskList.bubble, hash(NewContent(now, text)), NewContent(now, text))] &&
        (reply.Pass? ==>
          |taskList.tasks| == |old(taskList.tasks)| + 1 &&
          taskList.tasks[..|old(taskList.tasks)|] == old(taskList.tasks) &&
          fresh(taskList.tasks[|old(taskList.tasks)|]) &&
          taskList.tasks[|old(taskList.tasks)|].fileId == hash(NewContent(now, text)) &&
          taskList.tasks[|old(taskList.tasks)|].Content() == NewContent(now, text)) &&
        (reply.Fail? ==> taskList.tasks == old(taskList.tasks))
      ensures env.storage == old(env.storage)
    {
      if taskList == null {
        return Fail(NOT_INITIALISED);
      }
      r := taskList.CreateTask(text, now, hash, reply);
    }

    /** Forwarded to the task list; rejects when there is none, in which case `done` is left as it is. */
    method ToggleTask(task: Task, reply: Outcome) returns (r: Outcome)
      requires Valid()
      modifies env, task
      ensures taskList == null ==> r == Fail(NOT_INITIALISED) && env.calls == old(env.calls) && task.done == old(task.done)
      ensures taskList != null ==>
        r == reply && task.done == !old(task.done) &&
        env.calls == old(env.calls) + [Write(taskList.bubble, task.fileId, task.Content())]
      ensures env.storage == old(env.storage)
    {
      if taskList == null {
        return Fail(NOT_INITIALISED);
      }
      r := taskList.ToggleTask(task, reply);
    }

    /** Forwarded to the task list; rejects when there is none. */
    method DeleteTask(task: Task, reply: Outcome) returns (r: Outcome)
      requires Valid()
      modifies env, taskList
      ensures taskList == null ==> r == Fail(NOT_INITIALISED) && env.calls == old(env.calls)
      ensures taskList != null ==>
        r == reply &&
        env.calls == old(env.calls) + [Delete(taskList.bubble, task.fileId)] &&
        taskList.tasks == (if reply.Pass? then Without(old(taskList.tasks), task.fileId) else old(taskList.tasks))
      ensures env.storage == old(env.storage)
    {
      if taskList == null {
        return Fail(NOT_INITIALISED);
      }
      r := taskList.DeleteTask(task, reply);
    }

    /** `getTasks`: the task list's cache, or a rejection when there is no task list. */
    function GetTasks(): (r: Result<seq<Task>>)
      reads this, taskList
      ensures r.Failure? <==> taskList == null
      ensures r.Failure? ==> r.error == NOT_INITIALISED
      ensures r.Success? ==> r.value == taskList.tasks
    {
      if taskList == null then Failure(NOT_INITIALISED) else Success(taskList.tasks)
    }

    /** `getBubbleId`: the id of the bubble the task list was built on, or a rejection when there is none. */
    function GetBubbleId(): (r: Result<BubbleId>)
      reads this
      ensures r.Failure? <==> taskList == null
      ensures r.Failure? ==> r.error == NOT_INITIALISED
      ensures r.Success? ==> r.value == taskList.bubble.id
    {
      if taskList == null then Failure(NOT_INITIALISED) else Success(taskList.bubble.id)
    }
  }
}
