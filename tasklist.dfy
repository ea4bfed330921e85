/**
 * The task list bound to one off-chain bubble: an in-memory cache of tasks
 * kept in step with the bubble's files, one file per task, named by the hash
 * of the task's initial content.
 */
module Tasks {
  import opened Common

  /** A task as the cache and its callers share it: `done` is flipped in place. */
  class Task {
    const fileId: FileId
    const created: int
    const text: string
    var done: bool

    constructor (fileId: FileId, content: TaskContent)
      ensures this.fileId == fileId && Content() == content
    {
      this.fileId := fileId;
      created := content.created;
      text := content.text;
      done := content.done;
    }

    /** The data written to the task's file: every field except the file id. */
    function Content(): TaskContent
      reads this
    {
      TaskContent(created, text, done)
    }
  }

  /** A task as read back from the bubble: the file it came from and what the file held. */
  datatype Entry = Entry(fileId: FileId, content: TaskContent)

  /** The tasks `ts` hold exactly the entries `es`, position by position. */
  ghost predicate Holds(ts: seq<Task>, es: seq<Entry>)
    reads ts
  {
    |ts| == |es| &&
    forall i :: 0 <= i < |ts| ==> ts[i].fileId == es[i].fileId && ts[i].Content() == es[i].content
  }

  predicate SortedByCreated(ts: seq<Task>) {
    forall i, j :: 0 <= i < j < |ts| ==> ts[i].created <= ts[j].created
  }

  /**
   * The content a new task is created with at time `now`; its file id is the
   * hash of this content, computed once.
   */
  function NewContent(now: int, text: string): TaskContent {
    TaskContent(now, text, false)
  }

  /**
   * What reading the listed files yields when reads are awaited in listing
   * order: the entries read before the first failing read, and that failure.
   * `reader` is the bubble's reply to a read of each file, the decrypted
   * content already parsed.
   */
  datatype Fetch = Fetch(read: seq<Entry>, outcome: Outcome)

  function FetchAll(names: seq<FileId>, reader: FileId -> Result<TaskContent>): (f: Fetch)
    ensures |f.read| <= |names|
    ensures f.outcome.Pass? <==> |f.read| == |names|
    ensures forall i :: 0 <= i < |f.read| ==>
      f.read[i].fileId == names[i] && reader(names[i]) == Success(f.read[i].content)
    ensures f.outcome.Fail? ==> reader(names[|f.read|]) == Failure(f.outcome.error)
  {
    if names == [] then Fetch([], Pass)
    else match reader(names[0])
      case Failure(e) => Fetch([], Fail(e))
      case Success(c) =>
        var rest := FetchAll(names[1..], reader);
        Fetch([Entry(names[0], c)] + rest.read, rest.outcome)
  }

  /** Every read before the first failure succeeds; the result is the whole listing iff every read does. */
  lemma {:induction false} FetchAllStopsAtFirstFailure(names: seq<FileId>, reader: FileId -> Result<TaskContent>, k: nat)
    requires k <= |names|
    requires forall i :: 0 <= i < k ==> reader(names[i]).Success?
    requires k == |names| || reader(names[k]).Failure?
    ensures |FetchAll(names, reader).read| == k
    ensures ReadsIssued(names, reader) == if k == |names| then k else k + 1
    decreases k
  {
    if k > 0 {
      assert forall i :: 0 <= i < k - 1 ==> names[1..][i] == names[i + 1];
      FetchAllStopsAtFirstFailure(names[1..], reader, k - 1);
    }
  }

  /** The calls issued to read `names` one after another. */
  function ReadCalls(bubble: Bubble, names: seq<FileId>): (cs: seq<Call>)
    ensures |cs| == |names|
  {
    if names == [] then [] else [Read(bubble, names[0])] + ReadCalls(bubble, names[1..])
  }

  /** Reading two batches of files one after the other issues both batches' reads in order. */
  lemma {:induction false} ReadCallsAppend(bubble: Bubble, a: seq<FileId>, b: seq<FileId>)
    ensures ReadCalls(bubble, a + b) == ReadCalls(bubble, a) + ReadCalls(bubble, b)
  {
    if a == [] {
      assert a + b == b;
    } else {
      assert (a + b)[0] == a[0] && (a + b)[1..] == a[1..] + b;
      ReadCallsAppend(bubble, a[1..], b);
    }
  }

  /** Issuing one more read extends the calls by that read. */
  lemma ReadCallsSnoc(bubble: Bubble, names: seq<FileId>, i: nat)
    requires i < |names|
    ensures ReadCalls(bubble, names[..i + 1]) == ReadCalls(bubble, names[..i]) + [Read(bubble, names[i])]
  {
    assert names[..i + 1] == names[..i] + [names[i]];
    ReadCallsAppend(bubble, names[..i], [names[i]]);
  }

  /** The number of files whose read is issued: every one up to and including the first that fails. */
  function ReadsIssued(names: seq<FileId>, reader: FileId -> Result<TaskContent>): (n: nat)
    ensures n <= |names|
  {
    if names == [] then 0
    else if reader(names[0]).Failure? then 1
    else 1 + ReadsIssued(names[1..], reader)
  }

  /**
   * The cache after the tasks with file id `fileId` are deleted.
   * Only those are dropped, and every other task keeps its multiplicity.
   */
  function Without(ts: seq<Task>, fileId: FileId): (r: seq<Task>)
    ensures forall i :: 0 <= i < |r| ==> r[i] in ts && r[i].fileId != fileId
    ensures forall i :: 0 <= i < |ts| && ts[i].fileId != fileId ==> multiset(r)[ts[i]] == multiset(ts)[ts[i]]
    ensures |r| <= |ts|
  {
    if ts == [] then []
    else
      var rest := Without(ts[1..], fileId);
      assert multiset(ts) == multiset{ts[0]} + multiset(ts[1..]) by { assert ts == [ts[0]] + ts[1..]; }
      assert forall i :: 1 <= i < |ts| ==> ts[i] == ts[1..][i - 1];
      if ts[0].fileId == fileId then rest
      else
        assert multiset([ts[0]] + rest) == multiset{ts[0]} + multiset(rest);
        [ts[0]] + rest
  }

  /** Deleting distributes over concatenation, so the tasks kept stay in their relative order. */
  lemma {:induction false} WithoutAppend(a: seq<Task>, b: seq<Task>, fileId: FileId)
    ensures Without(a + b, fileId) == Without(a, fileId) + Without(b, fileId)
  {
    if a == [] {
      assert a + b == b;
    } else {
      assert (a + b)[0] == a[0] && (a + b)[1..] == a[1..] + b;
      WithoutAppend(a[1..], b, fileId);
    }
  }

  /** A cache with no task of that file id is left as it is. */
  lemma {:induction false} WithoutAbsent(ts: seq<Task>, fileId: FileId)
    requires forall t :: t in ts ==> t.fileId != fileId
    ensures Without(ts, fileId) == ts
  {
    if ts != [] {
      assert ts[0] in ts;
      assert forall t :: t in ts[1..] ==> t in ts;
      WithoutAbsent(ts[1..], fileId);
    }
  }

  /**
   * Inserts `t` after every task created no later than it, so `q` stays
   * sorted and tasks with equal timestamps keep their order.
   */
  method InsertByCreated(r: seq<Task>, t: Task) returns (q: seq<Task>)
    requires SortedByCreated(r)
    ensures SortedByCreated(q)
    ensures multiset(q) == multiset(r) + multiset{t}
  {
    var j := |r|;
    while j > 0 && r[j - 1].created > t.created
      invariant 0 <= j <= |r|
      invariant forall k :: j <= k < |r| ==> r[k].created > t.created
    {
      j := j - 1;
    }
    q := r[..j] + [t] + r[j..];
    InsertKeepsSorted(r, t, j);
    InsertAddsOne(r, t, j);
  }

  /** Placing `t` between the tasks created no later and those created later keeps a sorted cache sorted. */
  lemma InsertKeepsSorted(r: seq<Task>, t: Task, j: nat)
    requires SortedByCreated(r) && j <= |r|
    requires j > 0 ==> r[j - 1].created <= t.created
    requires forall k :: j <= k < |r| ==> r[k].created > t.created
    ensures SortedByCreated(r[..j] + [t] + r[j..])
  {
    var q := r[..j] + [t] + r[j..];
    assert forall k :: 0 <= k < j ==> r[k].created <= t.created;
    assert forall k :: 0 <= k < |q| ==> q[k] == if k < j then r[k] else if k == j then t else r[k - 1];
  }

  /** Placing `t` anywhere in `r` adds exactly `t` to its tasks. */
  lemma InsertAddsOne(r: seq<Task>, t: Task, j: nat)
    requires j <= |r|
    ensures multiset(r[..j] + [t] + r[j..]) == multiset(r) + multiset{t}
  {
    assert r[..j] + r[j..] == r;
  }

  /** `tasks.sort((a, b) => a.created - b.created)`: ascending by creation time, a permutation. */
  method SortByCreated(s: seq<Task>) returns (r: seq<Task>)
    ensures SortedByCreated(r)
    ensures multiset(r) == multiset(s)
  {
    r := [];
    for i := 0 to |s|
      invariant SortedByCreated(r)
      invariant multiset(r) == multiset(s[..i])
    {
      r := InsertByCreated(r, s[i]);
      assert s[..i + 1] == s[..i] + [s[i]];
    }
    assert s[..|s|] == s;
  }

  /**
   * Reads the listed files in order and builds one new task per file read,
   * tagged with the file's name, until a read fails.
   */
  method FetchTasks(env: Environment, bubble: Bubble, names: seq<FileId>, reader: FileId -> Result<TaskContent>)
    returns (loaded: seq<Task>, r: Outcome)
    modifies env
    ensures r == FetchAll(names, reader).outcome
    ensures Holds(loaded, FetchAll(names, reader).read)
    ensures forall t :: t in loaded ==> fresh(t)
    ensures env.calls == old(env.calls) + ReadCalls(bubble, names[..ReadsIssued(names, reader)])
    ensures env.storage == old(env.storage)
  {
    loaded := [];
    r := Pass;
    var i := 0;
    while i < |names|
      invariant 0 <= i <= |names|
      invariant forall k :: 0 <= k < i ==> reader(names[k]).Success?
      invariant |loaded| == i
      invariant forall k :: 0 <= k < i ==>
        loaded[k].fileId == names[k] && Success(loaded[k].Content()) == reader(names[k])
      invariant forall t :: t in loaded ==> fresh(t)
      invariant env.calls == old(env.calls) + ReadCalls(bubble, names[..i])
      invariant env.storage == old(env.storage)
    {
      env.Invoke(Read(bubble, names[i]));
      ReadCallsSnoc(bubble, names, i);
      if reader(names[i]).Failure? {
        FetchAllStopsAtFirstFailure(names, reader, i);
        r := Fail(reader(names[i]).error);
        return;
      }
      var t := new Task(names[i], reader(names[i]).value);
      loaded := loaded + [t];
      i := i + 1;
    }
    FetchAllStopsAtFirstFailure(names, reader, i);
  }

  /** How a load of the task list settles, given the listing reply and the read replies. */
  function LoadOutcome(listing: Result<seq<FileId>>, reader: FileId -> Result<TaskContent>): Outcome {
    match listing
    case Failure(e) => Fail(e)
    case Success(names) => FetchAll(names, reader).outcome
  }

  /** The entries a load reads before it settles. */
  function LoadedEntries(listing: Result<seq<FileId>>, reader: FileId -> Result<TaskContent>): seq<Entry> {
    match listing
    case Failure(_) => []
    case Success(names) => FetchAll(names, reader).read
  }

  /** The calls a load issues: one listing of the root directory, then the reads. */
  function LoadCalls(bubble: Bubble, listing: Result<seq<FileId>>, reader: FileId -> Result<TaskContent>): seq<Call> {
    [List(bubble, 0)] +
    match listing
    case Failure(_) => []
    case Success(names) => ReadCalls(bubble, names[..ReadsIssued(names, reader)])
  }

  /** The silent flag sent to the host when the caller's options hold `silent` (or not). */
  function MergedSilent(callerSilent: Option<bool>): (r: Option<bool>)
    ensures r.Some?
    ensures callerSilent.Some? ==> r.value == callerSilent.value
    ensures callerSilent.None? ==> r.value
  {
    Some(if callerSilent.Some? then callerSilent.value else true)
  }

  /**
   * The task list of one bubble: the connection it talks to and the cache of
   * tasks read from or written to it.
   */
  class TaskList {
    const env: Environment
    const bubble: Bubble
    var tasks: seq<Task>

    constructor (env: Environment, bubble: Bubble)
      ensures this.env == env && this.bubble == bubble && tasks == []
    {
      this.env := env;
      this.bubble := bubble;
      tasks := [];
    }

    /**
     * Creates the bubble on its host. `{silent: true}` is placed before the
     * caller's options, so it holds unless the caller overrides it, and a
     * bubble that already exists does not make the call reject.
     */
    method Create(callerSilent: Option<bool>, reply: Outcome) returns (r: Outcome)
      modifies env
      ensures r == reply
      ensures env.calls == old(env.calls) + [CreateBubble(bubble, MergedSilent(callerSilent))]
      ensures callerSilent.None? ==> env.calls[|env.calls| - 1].silent == Some(true)
      ensures env.storage == old(env.storage)
    {
      env.Invoke(CreateBubble(bubble, MergedSilent(callerSilent)));
      r := reply;
    }

    /**
     * Lists the root directory, reads every file into a new task tagged with
     * the file's name, appends it to the cache, and sorts the cache by
     * creation time. The cache is not cleared first, and tasks read before a
     * failing read stay in it (unsorted).
     */
    method Initialise(listing: Result<seq<FileId>>, reader: FileId -> Result<TaskContent>)
      returns (r: Outcome, ghost loaded: seq<Task>)
      modifies this, env
      ensures r == LoadOutcome(listing, reader)
      ensures Holds(loaded, LoadedEntries(listing, reader))
      ensures forall t :: t in loaded ==> fresh(t)
      ensures env.calls == old(env.calls) + LoadCalls(bubble, listing, reader)
      ensures env.storage == old(env.storage)
      ensures r.Pass? ==> SortedByCreated(tasks) && multiset(tasks) == multiset(old(tasks) + loaded)
      ensures r.Fail? ==> tasks == old(tasks) + loaded
    {
      env.Invoke(List(bubble, 0));
      if listing.Failure? {
        r, loaded := Fail(listing.error), [];
        return;
      }
      var names := listing.value;
      var fetched;
      fetched, r := FetchTasks(env, bubble, names, reader);
      loaded := fetched;
      var all := tasks + fetched;
      if r.Pass? {
        tasks := SortByCreated(all);
      } else {
        tasks := all;
      }
    }

    /**
     * Writes a new task, created at `now` and not done, to the file named by
     * the hash of its content; the task joins the cache only once the write
     * succeeds.
     */
    method CreateTask(text: string, now: int, hash: TaskContent -> FileId, reply: Outcome) returns (r: Outcome)
      modifies this, env
      ensures r == reply
      ensures env.calls == old(env.calls) + [Write(bubble, hash(NewContent(now, text)), NewContent(now, text))]
      ensures env.storage == old(env.storage)
      ensures reply.Pass? ==>
        |tasks| == |old(tasks)| + 1 && tasks[..|old(tasks)|] == old(tasks) &&
        fresh(tasks[|old(tasks)|]) &&
        tasks[|old(tasks)|].fileId == hash(NewContent(now, text)) &&
        tasks[|old(tasks)|].Content() == NewContent(now, text)
      ensures reply.Fail? ==> tasks == old(tasks)
    {
      var content := NewContent(now, text);
      var task := new Task(hash(content), content);
      r := SaveTask(task, reply);
      if r.Pass? {
        tasks := tasks + [task];
      }
    }

    /** Flips `done` in place, before the write is issued, and rewrites the task under the same file id. */
    method ToggleTask(task: Task, reply: Outcome) returns (r: Outcome)
      modifies task, env
      ensures r == reply
      ensures task.done == !old(task.done)
      ensures env.calls == old(env.calls) + [Write(bubble, task.fileId, task.Content())]
      ensures env.storage == old(env.storage)
    {
      task.done := !task.done;
      r := SaveTask(task, reply);
    }

    /** Deletes the task's file; only once that succeeds are the tasks with its file id dropped from the cache. */
    method DeleteTask(task: Task, reply: Outcome) returns (r: Outcome)
      modifies this, env
      ensures r == reply
      ensures env.calls == old(env.calls) + [Delete(bubble, task.fileId)]
      ensures env.storage == old(env.storage)
      ensures reply.Pass? ==> tasks == Without(old(tasks), task.fileId)
      ensures reply.Fail? ==> tasks == old(tasks)
    {
      env.Invoke(Delete(bubble, task.fileId));
      r := reply;
      if r.Pass? {
        tasks := Without(tasks, task.fileId);
      }
    }

    /** Writes the task to its file; the data written is every field but the file id, which names the file. */
    method SaveTask(task: Task, reply: Outcome) returns (r: Outcome)
      modifies env
      ensures r == reply
      ensures env.calls == old(env.calls) + [Write(bubble, task.fileId, task.Content())]
      ensures env.storage == old(env.storage)
    {
      env.Invoke(Write(bubble, task.fileId, task.Content()));
      r := reply;
    }
  }
}
