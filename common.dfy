/**
 * Values shared by the session, the task list and the application controller:
 * optional values and rejections, the session key, the bubble identifier, the
 * record kept in the device's local storage, the content of a task, and the
 * environment every external operation goes through.
 */
module Common {

  datatype Option<T> = None | Some(value: T)

  /** The reason a promise rejected. */
  datatype Error = Error(message: string)

  /** The settlement of a promise that yields a value. */
  datatype Result<T> = Success(value: T) | Failure(error: Error)

  /** The settlement of a promise that yields nothing. */
  datatype Outcome = Pass | Fail(error: Error)

  /**
   * A private key as the crypto library serialises it. The library never
   * produces an empty one, so a key is always truthy.
   */
  type PrivateKey = s: string | s != "" witness "k"

  /** An ECDSA key pair, opaque except for the private key it is rebuilt from. */
  datatype Key = Key(privateKey: PrivateKey)

  type Address = string

  /** The address of a freshly deployed contract, as the wallet reports it: never empty. */
  type DeployedAddress = a: Address | a != "" witness "0x0"
  type FileId = string

  /**
   * JavaScript truthiness of an optional string field: absent and the empty
   * string are both falsy.
   */
  predicate Truthy(s: Option<string>) {
    s.Some? && s.value != ""
  }

  /**
   * The identifier of an off-chain bubble: chain id, contract address and the
   * provider URL. Each part is optional because the session fills it in stage
   * by stage and local storage may hold any of them.
   */
  datatype BubbleId = BubbleId(chain: Option<int>, contract: Option<Address>, provider: Option<string>)

  /**
   * The JSON object kept in local storage. `key` is the serialised private key;
   * `version` is absent in records written before versioning.
   */
  datatype Record = Record(version: Option<int>, key: Option<string>, bubbleId: Option<BubbleId>)

  /** The fields of a task that are written to its file (everything but the file id). */
  datatype TaskContent = TaskContent(created: int, text: string, done: bool)

  /** A connection to a bubble: its identifier and the host URL requests go to. */
  datatype Bubble = Bubble(id: BubbleId, host: string)

  /**
   * Every operation the model performs outside its own memory, in the order it
   * is issued: writes to local storage, wallet requests and bubble requests.
   * `CreateBubble.silent` is the `silent` option passed to the host, absent
   * when no options object is given.
   */
  datatype Call =
    | Store(name: string, record: Record)
    | Connect
    | Deploy(chain: int, owner: Key)
    | CreateBubble(bubble: Bubble, silent: Option<bool>)
    | List(bubble: Bubble, dir: nat)
    | Read(bubble: Bubble, file: FileId)
    | Write(bubble: Bubble, file: FileId, data: TaskContent)
    | Delete(bubble: Bubble, file: FileId)

  /** What local storage holds after `c`: only a `Store` changes it. */
  function Effect(storage: map<string, Record>, c: Call): map<string, Record> {
    if c.Store? then storage[c.name := c.record] else storage
  }

  /** Local storage after the calls `cs` are issued in order. */
  function Replay(storage: map<string, Record>, cs: seq<Call>): (m: map<string, Record>)
    ensures (forall c :: c in cs ==> !c.Store?) ==> m == storage
    decreases cs
  {
    if cs == [] then storage else Replay(Effect(storage, cs[0]), cs[1..])
  }

  /** Replaying two batches of calls one after the other is replaying them together. */
  lemma {:induction false} ReplayAppend(storage: map<string, Record>, a: seq<Call>, b: seq<Call>)
    ensures Replay(storage, a + b) == Replay(Replay(storage, a), b)
    decreases a
  {
    if a == [] {
      assert a + b == b;
    } else {
      assert (a + b)[0] == a[0] && (a + b)[1..] == a[1..] + b;
      ReplayAppend(Effect(storage, a[0]), a[1..], b);
    }
  }

  /** Issuing one more call applies its effect to the replayed storage. */
  lemma ReplaySnoc(storage: map<string, Record>, cs: seq<Call>, c: Call)
    ensures Replay(storage, cs + [c]) == Effect(Replay(storage, cs), c)
  {
    ReplayAppend(storage, cs, [c]);
    assert [c][1..] == [];
  }

  /** Appending `b` and then `c` to a log appends `b + c`. */
  lemma AppendAssociates<T>(a: seq<T>, b: seq<T>, c: seq<T>)
    ensures a + b + c == a + (b + c)
  {
  }

  /** The record local storage holds under `name`, if any (`localStorage.getItem`). */
  function Lookup(storage: map<string, Record>, name: string): Option<Record> {
    if name in storage then Some(storage[name]) else None
  }

  /**
   * The world outside the model's memory: the device's local storage (a map
   * from item name to record) and the log of every call issued so far.
   * The replies of the wallet and the bubble host are given to the operations
   * that issue the calls, so each outcome is an input of the model.
   */
  class Environment {
    var storage: map<string, Record>
    var calls: seq<Call>

    constructor (storage: map<string, Record>)
      ensures this.storage == storage && calls == []
    {
      this.storage := storage;
      calls := [];
    }

    /** Issues `c`: logs it and applies its effect on local storage. */
    method Invoke(c: Call)
      modifies this
      ensures calls == old(calls) + [c]
      ensures storage == Effect(old(storage), c)
    {
      calls := calls + [c];
      storage := Effect(storage, c);
    }
  }
}
