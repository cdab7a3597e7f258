/**
 * The transactional access layer of the etcd client, as far as its tests
 * pin it down: a transaction handle that buffers writes and serves reads of
 * its own writes, a context that carries a handle, DoInTransaction with its
 * two branches, and the non-transactional Delete.  The store is an abstract
 * key-value map; the compare-and-retry commit protocol is replaced by one
 * atomic application of the write buffer (see README).
 */
module EtcdTxn {
  import opened Dynamic

  newtype byte = b: int | 0 <= b < 256

  type Bytes = seq<byte>

  /** A read of `key` in a key-value view; an absent key reads as empty. */
  function Read(view: map<string, Bytes>, key: string): Bytes
  {
    if key in view then view[key] else []
  }

  /** The transaction handle (stmTxn): the store contents its reads fall
      back to, and the buffer of writes not yet visible in the store. */
  class StmTxn {
    const base: map<string, Bytes>
    var writes: map<string, Bytes>

    constructor (base: map<string, Bytes>)
      ensures this.base == base && writes == map[]
    {
      this.base := base;
      writes := map[];
    }

    /** The store as this transaction sees it. */
    function View(): map<string, Bytes>
      reads this
    {
      base + writes
    }

    /** txn.Put: buffer the value, replacing any earlier buffered value. */
    method Put(key: string, value: Bytes)
      modifies this
      ensures writes == old(writes)[key := value]
    {
      writes := writes[key := value];
    }

    /** txn.Get: a buffered write wins over the store. */
    method Get(key: string) returns (value: Bytes)
      ensures value == Read(View(), key)
      ensures key in writes ==> value == writes[key]
      ensures key !in writes ==> value == Read(base, key)
    {
      value := if key in writes then writes[key] else Read(base, key);
    }
  }

  /** A call context; WithTxn attaches a transaction handle to it. */
  datatype Context = Background | WithTxn(parent: Context, txn: StmTxn)

  /** GetTxn: the handle the context carries, if any. */
  function GetTxn(ctx: Context): (r: Option<StmTxn>)
    ensures r.Some? <==> ctx.WithTxn?
    ensures ctx.WithTxn? ==> r.value == ctx.txn
  {
    match ctx
    case Background => None
    case WithTxn(_, txn) => Some(txn)
  }

  function TxnSet(ctx: Context): set<object>
  {
    if GetTxn(ctx).Some? then {GetTxn(ctx).value} else {}
  }

  /**
   * The operation passed to DoInTransaction, written as the steps the
   * tests' closures take against GetTxn(ctx): put a value; get a value and
   * fail with `message` unless it equals `value`; return an error.
   */
  datatype Step =
    | Put(key: string, value: Bytes)
    | Expect(key: string, value: Bytes, message: string)
    | Return(message: string)

  /** What an operation returns, and the write buffer it leaves behind. */
  datatype OpResult = OpResult(err: Option<string>, writes: map<string, Bytes>)

  /** The meaning of an operation run against a handle over `base` whose
      buffer is `writes`. */
  function Exec(base: map<string, Bytes>, writes: map<string, Bytes>, steps: seq<Step>): OpResult
    decreases |steps|
  {
    if steps == [] then OpResult(None, writes)
    else
      match steps[0]
      case Put(key, value) => Exec(base, writes[key := value], steps[1..])
      case Expect(key, value, message) =>
        if Read(base + writes, key) == value then Exec(base, writes, steps[1..])
        else OpResult(Some(message), writes)
      case Return(message) => OpResult(Some(message), writes)
  }

  /** Runs an operation against the handle its context carries. */
  method Run(ctx: Context, steps: seq<Step>) returns (err: Option<string>)
    requires GetTxn(ctx).Some?
    modifies GetTxn(ctx).value
    ensures OpResult(err, GetTxn(ctx).value.writes) == Exec(GetTxn(ctx).value.base, old(GetTxn(ctx).value.writes), steps)
    decreases |steps|
  {
    var txn := GetTxn(ctx).value;
    if steps == [] {
      return None;
    }
    match steps[0]
    case Put(key, value) =>
      txn.Put(key, value);
      err := Run(ctx, steps[1..]);
    case Expect(key, value, message) =>
      var got := txn.Get(key);
      if got != value {
        return Some(message);
      }
      err := Run(ctx, steps[1..]);
    case Return(message) =>
      return Some(message);
  }

  /** The client: the store, as an abstract map. */
  class Client {
    var kv: map<string, Bytes>

    constructor (kv: map<string, Bytes>)
      ensures this.kv == kv
    {
      this.kv := kv;
    }

    /** Non-transactional Delete: never an error, also for an absent key. */
    method Delete(key: string) returns (err: Option<string>)
      modifies this
      ensures err.None?
      ensures kv == old(kv) - {key}
    {
      kv := kv - {key};
      err := None;
    }

    /**
     * DoInTransaction.  With a handle already in the context, the operation
     * runs against it and its result comes back unchanged, with no commit:
     * the store is untouched.  Otherwise a fresh handle over the store is
     * attached to the context for the operation, and when the operation
     * succeeds its buffered writes are committed to the store in one step.
     */
    method DoInTransaction(ctx: Context, op: seq<Step>) returns (err: Option<string>)
      modifies this, TxnSet(ctx)
      ensures GetTxn(ctx).Some? ==>
        var txn := GetTxn(ctx).value;
        OpResult(err, txn.writes) == Exec(txn.base, old(txn.writes), op) && kv == old(kv)
      ensures GetTxn(ctx).None? ==>
        var r := Exec(old(kv), map[], op);
        err == r.err && kv == (if r.err.None? then old(kv) + r.writes else old(kv))
    {
      if GetTxn(ctx).Some? {
        err := Run(ctx, op);
        return;
      }
      var txn := new StmTxn(kv);
      err := Run(WithTxn(ctx, txn), op);
      if err.None? {
        kv := kv + txn.writes;
      }
    }
  }

  // -----------------------------------------------------------------------
  // Reading your own writes

  /** The value of the last Put of `key` among `steps`, if there is one. */
  function LastPut(steps: seq<Step>, key: string): Option<Bytes>
  {
    if steps == [] then None
    else if steps[|steps| - 1].Put? && steps[|steps| - 1].key == key then Some(steps[|steps| - 1].value)
    else LastPut(steps[..|steps| - 1], key)
  }

  /** An operation that returns no error of its own and only reads keys it
      has written, expecting the value it last put under each. */
  predicate ReadsOnlyOwnWrites(steps: seq<Step>)
  {
    forall i :: 0 <= i < |steps| ==>
      !steps[i].Return? && (steps[i].Expect? ==> LastPut(steps[..i], steps[i].key) == Some(steps[i].value))
  }

  /** The buffer holds what the steps done so far last put. */
  ghost predicate Buffers(writes: map<string, Bytes>, done: seq<Step>)
  {
    forall key :: LastPut(done, key).Some? ==> key in writes && writes[key] == LastPut(done, key).value
  }

  lemma {:induction false} OwnWritesSucceedFrom(base: map<string, Bytes>, writes: map<string, Bytes>, done: seq<Step>, rest: seq<Step>)
    requires Buffers(writes, done)
    requires ReadsOnlyOwnWrites(done + rest)
    ensures Exec(base, writes, rest).err.None?
    ensures Buffers(Exec(base, writes, rest).writes, done + rest)
    decreases |rest|
  {
    if rest == [] {
      assert done + rest == done;
    } else {
      var step := rest[0];
      var done' := done + [step];
      assert done + rest == done' + rest[1..];
      assert (done + rest)[..|done|] == done;
      assert (done + rest)[|done|] == step;
      assert !step.Return?;
      var writes' := if step.Put? then writes[step.key := step.value] else writes;
      forall key | LastPut(done', key).Some?
        ensures key in writes' && writes'[key] == LastPut(done', key).value
      {
        assert done'[..|done'| - 1] == done;
      }
      if step.Expect? {
        assert Read(base + writes, step.key) == step.value;
      }
      OwnWritesSucceedFrom(base, writes', done', rest[1..]);
    }
  }

  /** Whatever the store holds, an operation that only reads its own
      writes completes without error, and leaves in its buffer the last
      value it put under each key. */
  lemma OwnWritesSucceed(base: map<string, Bytes>, steps: seq<Step>)
    requires ReadsOnlyOwnWrites(steps)
    ensures Exec(base, map[], steps).err.None?
    ensures Buffers(Exec(base, map[], steps).writes, steps)
  {
    assert [] + steps == steps;
    OwnWritesSucceedFrom(base, map[], [], steps);
  }

  /** A Get right after a Put of the same key returns the value put. */
  lemma ReadAfterPut(base: map<string, Bytes>, writes: map<string, Bytes>, key: string, value: Bytes, message: string, rest: seq<Step>)
    ensures Exec(base, writes, [Put(key, value), Expect(key, value, message)] + rest) == Exec(base, writes[key := value], rest)
  {
    var steps := [Put(key, value), Expect(key, value, message)] + rest;
    assert steps[1..] == [Expect(key, value, message)] + rest;
    assert steps[1..][1..] == rest;
  }

  /** A second Put of a key replaces the first in the buffer. */
  lemma SecondPutOverwrites(base: map<string, Bytes>, writes: map<string, Bytes>, key: string, v1: Bytes, v2: Bytes, rest: seq<Step>)
    ensures Exec(base, writes, [Put(key, v1), Put(key, v2)] + rest) == Exec(base, writes[key := v2], rest)
  {
    var steps := [Put(key, v1), Put(key, v2)] + rest;
    assert steps[1..] == [Put(key, v2)] + rest;
    assert steps[1..][1..] == rest;
    assert writes[key := v1][key := v2] == writes[key := v2];
  }

  // -----------------------------------------------------------------------
  // The operations of TestClient_DoInTransaction

  /** "get the key twice": put, read back, put a newer value, read back. */
  function GetTheKeyTwice(key: string, v1: Bytes, v2: Bytes): seq<Step>
  {
    [Put(key, v1), Expect(key, v1, "value should be updated"),
     Put(key, v2), Expect(key, v2, "value should be updated again")]
  }

  lemma GetTheKeyTwiceCommits(base: map<string, Bytes>, key: string, v1: Bytes, v2: Bytes)
    ensures Exec(base, map[], GetTheKeyTwice(key, v1, v2)) == OpResult(None, map[key := v2])
  {
    var steps := GetTheKeyTwice(key, v1, v2);
    assert steps == [Put(key, v1), Expect(key, v1, "value should be updated")] + steps[2..];
    ReadAfterPut(base, map[], key, v1, "value should be updated", steps[2..]);
    assert steps[2..] == [Put(key, v2), Expect(key, v2, "value should be updated again")] + [];
    ReadAfterPut(base, map[][key := v1], key, v2, "value should be updated again", []);
    assert map[][key := v1][key := v2] == map[key := v2];
  }

  /** The three cases of the test, with the test's deferred Delete: the
      errors DoInTransaction returns, the errors of the Deletes, and the
      store after the third case commits. */
  method DoInTransactionCases(store: map<string, Bytes>, key: string, v1: Bytes, v2: Bytes)
    returns (results: seq<Option<string>>, deletes: seq<Option<string>>, committed: map<string, Bytes>)
    ensures results == [None, Some("assert.AnError"), None]
    ensures deletes == [None, None, None]
    ensures committed == store[key := v2]
  {
    // transaction is already in context, function returns no error
    var c := new Client(store);
    var attached := new StmTxn(map[]);
    var err := c.DoInTransaction(WithTxn(Background, attached), []);
    assert err.None? && c.kv == store;
    results := [err];
    err := c.Delete(key);
    deletes := [err];

    // transaction is already in context, function returns error
    c := new Client(store);
    attached := new StmTxn(map[]);
    err := c.DoInTransaction(WithTxn(Background, attached), [Return("assert.AnError")]);
    assert c.kv == store;
    results := results + [err];
    err := c.Delete(key);
    deletes := deletes + [err];

    // get the key twice
    c := new Client(store);
    GetTheKeyTwiceCommits(store, key, v1, v2);
    err := c.DoInTransaction(Background, GetTheKeyTwice(key, v1, v2));
    results := results + [err];
    committed := c.kv;
    err := c.Delete(key);
    assert key !in c.kv;
    deletes := deletes + [err];
  }
}
