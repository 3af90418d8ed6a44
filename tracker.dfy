/** The Redis-backed run tracker (redis.go:74-122): one counter per run id
    of the scenario files still to finish, each key living for six hours
    after it was last set or decremented.

    The Redis server is the pair of maps `values` (key to integer) and
    `ttl` (key to seconds left); each command sent on the connection either
    reaches the server (`Ok`) or fails with a message, in which case the
    server is left as it was. */
module Tracker {
  import opened Wrappers
  import opened Text

  /** The expiry put on every key: six hours, in seconds. */
  const RedisTTLSecs: nat := 6 * 60 * 60

  const KeyPrefix: string := "oops:run:"
  const KeySuffix: string := ":remaining"

  /** The key of a run's counter. */
  function RedisKey(runId: string): (key: string)
    ensures HasPrefix(key, KeyPrefix) && HasSuffix(key, KeySuffix)
    ensures |key| == |KeyPrefix| + |runId| + |KeySuffix|
  {
    var key := KeyPrefix + runId + KeySuffix;
    assert key[..|KeyPrefix|] == KeyPrefix;
    assert key[|key| - |KeySuffix|..] == KeySuffix;
    key
  }

  /** The run id a key was made from. */
  function RunIdOfKey(key: string): string
    requires |key| >= |KeyPrefix| + |KeySuffix|
  {
    key[|KeyPrefix|..|key| - |KeySuffix|]
  }

  /** Keys are read back into their run id, so distinct runs never share a
      counter. */
  lemma RedisKeyRoundTrip(runId: string)
    ensures RunIdOfKey(RedisKey(runId)) == runId
  {
    var key := KeyPrefix + runId + KeySuffix;
    assert key[|KeyPrefix|..|key| - |KeySuffix|] == runId;
  }

  lemma RedisKeyInjective(a: string, b: string)
    requires a != b
    ensures RedisKey(a) != RedisKey(b)
  {
    RedisKeyRoundTrip(a);
    RedisKeyRoundTrip(b);
  }

  /** The fate of one command sent to Redis. */
  datatype Reply = Ok | Fail(msg: string)

  /** The server's state. */
  datatype Store = Store(values: map<string, int>, ttl: map<string, nat>)

  /** Every key has a positive time to live. */
  predicate Consistent(st: Store) {
    st.values.Keys == st.ttl.Keys && forall k :: k in st.ttl ==> st.ttl[k] > 0
  }

  /** The result of Set: the new store and the error returned. */
  datatype SetResult = SetResult(store: Store, err: Option<string>)

  /** The result of Decr: the new store, the value returned and the error. */
  datatype DecrResult = DecrResult(store: Store, val: int, err: Option<string>)

  /** SETEX: the counter is (re)set to `total` with a fresh expiry. */
  function SetOn(st: Store, runId: string, total: int, setex: Reply): (r: SetResult)
    ensures setex.Fail? ==> r == SetResult(st, Some(setex.msg))
    ensures setex.Ok? ==>
      && r.err.None?
      && r.store.values == st.values[RedisKey(runId) := total]
      && r.store.ttl == st.ttl[RedisKey(runId) := RedisTTLSecs]
  {
    var key := RedisKey(runId);
    match setex
    case Fail(m) => SetResult(st, Some(m))
    case Ok => SetResult(Store(st.values[key := total], st.ttl[key := RedisTTLSecs]), None)
  }

  /** EXISTS, then DECR and EXPIRE: an absent counter gives -1 without an
      error and is not created; a present one is decremented and its new
      value returned, with the expiry renewed when EXPIRE goes through (its
      failure is ignored). A failure of EXISTS or DECR gives -1 and the
      error. */
  function DecrOn(st: Store, runId: string, existsReply: Reply, decrReply: Reply, expireReply: Reply): (r: DecrResult)
    ensures existsReply.Fail? ==> r == DecrResult(st, -1, Some(existsReply.msg))
    ensures existsReply.Ok? && RedisKey(runId) !in st.values ==> r == DecrResult(st, -1, None)
    ensures existsReply.Ok? && RedisKey(runId) in st.values && decrReply.Fail? ==> r == DecrResult(st, -1, Some(decrReply.msg))
    ensures existsReply.Ok? && RedisKey(runId) in st.values && decrReply.Ok? ==>
      && r.err.None?
      && r.val == st.values[RedisKey(runId)] - 1
      && r.store.values == st.values[RedisKey(runId) := r.val]
      && r.store.ttl == (if expireReply.Ok? then st.ttl[RedisKey(runId) := RedisTTLSecs] else st.ttl)
  {
    var key := RedisKey(runId);
    if existsReply.Fail? then DecrResult(st, -1, Some(existsReply.msg))
    else if key !in st.values then DecrResult(st, -1, None)
    else if decrReply.Fail? then DecrResult(st, -1, Some(decrReply.msg))
    else
      var val := st.values[key] - 1;
      var ttl := if expireReply.Ok? then st.ttl[key := RedisTTLSecs] else st.ttl;
      DecrResult(Store(st.values[key := val], ttl), val, None)
  }

  /** DEL: the counter is gone. */
  function DeleteOn(st: Store, runId: string, del: Reply): (r: SetResult)
    ensures del.Fail? ==> r == SetResult(st, Some(del.msg))
    ensures del.Ok? ==>
      && r.err.None?
      && r.store.values == st.values - {RedisKey(runId)}
      && r.store.ttl == st.ttl - {RedisKey(runId)}
  {
    var key := RedisKey(runId);
    match del
    case Fail(m) => SetResult(st, Some(m))
    case Ok => SetResult(Store(st.values - {key}, st.ttl - {key}), None)
  }

  /** `secs` seconds pass on the server: keys whose time runs out vanish,
      the others have that much less left. */
  function ElapseOn(st: Store, secs: nat): (r: Store)
    requires Consistent(st)
    ensures Consistent(r)
    ensures forall k :: k in r.values <==> k in st.values && st.ttl[k] > secs
    ensures forall k :: k in r.values ==> r.values[k] == st.values[k] && r.ttl[k] == st.ttl[k] - secs
  {
    var live := set k | k in st.ttl && st.ttl[k] > secs;
    Store(map k | k in live && k in st.values :: st.values[k],
          map k | k in live :: st.ttl[k] - secs)
  }

  /** Every operation keeps every key with a positive time to live. */
  lemma OperationsKeepConsistent(st: Store, runId: string, n: int, a: Reply, b: Reply, c: Reply)
    requires Consistent(st)
    ensures Consistent(SetOn(st, runId, n, a).store)
    ensures Consistent(DecrOn(st, runId, a, b, c).store)
    ensures Consistent(DeleteOn(st, runId, a).store)
  {
  }

  /** Decr with every command going through. */
  function DecrOk(st: Store, runId: string): DecrResult {
    DecrOn(st, runId, Ok, Ok, Ok)
  }

  /** The store after `k` successful decrements. */
  function DecrTimes(st: Store, runId: string, k: nat): Store {
    if k == 0 then st else DecrOk(DecrTimes(st, runId, k - 1), runId).store
  }

  /** After Set(id, n), the counter counts down: the first k decrements leave
      n - k, and the decrement after them returns n - k - 1. */
  lemma {:induction false} Countdown(st: Store, runId: string, n: int, k: nat)
    ensures var s := DecrTimes(SetOn(st, runId, n, Ok).store, runId, k);
      && RedisKey(runId) in s.values && s.values[RedisKey(runId)] == n - k
      && DecrOk(s, runId).val == n - k - 1 && DecrOk(s, runId).err.None?
  {
    if k > 0 {
      Countdown(st, runId, n, k - 1);
    }
  }

  /** The n decrements after Set(id, n) return n-1, ..., 1, 0, and one more
      returns -1 without an error: exactly what an absent counter gives. */
  lemma OverDecrementLooksAbsent(st: Store, runId: string, n: nat, absent: Store)
    requires RedisKey(runId) !in absent.values
    ensures DecrOk(DecrTimes(SetOn(st, runId, n, Ok).store, runId, n), runId).val
         == DecrOk(absent, runId).val == -1
    ensures DecrOk(DecrTimes(SetOn(st, runId, n, Ok).store, runId, n), runId).err
         == DecrOk(absent, runId).err == None
  {
    Countdown(st, runId, n, n);
  }

  /** After a successful Delete, Decr finds nothing and returns -1. */
  lemma DecrAfterDelete(st: Store, runId: string, e: Reply, x: Reply)
    ensures DecrOn(DeleteOn(st, runId, Ok).store, runId, Ok, e, x) ==
      DecrResult(DeleteOn(st, runId, Ok).store, -1, None)
  {
  }

  /** Once a counter's time runs out, Decr finds nothing and returns -1. */
  lemma DecrAfterExpiry(st: Store, runId: string, secs: nat, e: Reply, x: Reply)
    requires Consistent(st) && RedisKey(runId) in st.ttl && st.ttl[RedisKey(runId)] <= secs
    ensures DecrOn(ElapseOn(st, secs), runId, Ok, e, x).val == -1
    ensures DecrOn(ElapseOn(st, secs), runId, Ok, e, x).err.None?
  {
  }

  /** Operations on one run leave every other run's counter and expiry as
      they were. */
  lemma OtherRunsUntouched(st: Store, runId: string, other: string, n: int, a: Reply, b: Reply, c: Reply)
    requires other != runId
    ensures var k := RedisKey(other);
      && (k in SetOn(st, runId, n, a).store.values <==> k in st.values)
      && (k in st.values ==> SetOn(st, runId, n, a).store.values[k] == st.values[k])
      && (k in DecrOn(st, runId, a, b, c).store.values <==> k in st.values)
      && (k in st.values ==> DecrOn(st, runId, a, b, c).store.values[k] == st.values[k])
      && (k in DeleteOn(st, runId, a).store.values <==> k in st.values)
      && (k in st.values ==> DeleteOn(st, runId, a).store.values[k] == st.values[k])
      && (k in SetOn(st, runId, n, a).store.ttl <==> k in st.ttl)
      && (k in st.ttl ==> SetOn(st, runId, n, a).store.ttl[k] == st.ttl[k])
      && (k in DecrOn(st, runId, a, b, c).store.ttl <==> k in st.ttl)
      && (k in st.ttl ==> DecrOn(st, runId, a, b, c).store.ttl[k] == st.ttl[k])
      && (k in DeleteOn(st, runId, a).store.ttl <==> k in st.ttl)
      && (k in st.ttl ==> DeleteOn(st, runId, a).store.ttl[k] == st.ttl[k])
  {
    RedisKeyInjective(other, runId);
  }

  /** The tracker as the pods see it: a client whose methods send the
      commands of redis.go:83-122 to the server held in `values` and `ttl`.
      The fate of each command is an argument. */
  class RunTracker {
    var values: map<string, int>
    var ttl: map<string, nat>

    function State(): Store
      reads this
    {
      Store(values, ttl)
    }

    constructor ()
      ensures State() == Store(map[], map[])
    {
      values := map[];
      ttl := map[];
    }

    /** Set: SETEX with the six-hour expiry. */
    method Set(runId: string, total: int, setex: Reply) returns (err: Option<string>)
      modifies this
      ensures SetResult(State(), err) == SetOn(old(State()), runId, total, setex)
    {
      var key := RedisKey(runId);
      if setex.Fail? {
        return Some(setex.msg);
      }
      values := values[key := total];
      ttl := ttl[key := RedisTTLSecs];
      return None;
    }

    /** Decr: EXISTS, then DECR, then EXPIRE, each checked in turn. */
    method Decr(runId: string, existsReply: Reply, decrReply: Reply, expireReply: Reply) returns (val: int, err: Option<string>)
      modifies this
      ensures DecrResult(State(), val, err) == DecrOn(old(State()), runId, existsReply, decrReply, expireReply)
    {
      var key := RedisKey(runId);
      if existsReply.Fail? {
        return -1, Some(existsReply.msg);
      }
      if key !in values {
        return -1, None;
      }
      if decrReply.Fail? {
        return -1, Some(decrReply.msg);
      }
      values := values[key := values[key] - 1];
      val := values[key];
      if expireReply.Ok? {
        ttl := ttl[key := RedisTTLSecs];
      }
      return val, None;
    }

    /** Delete: DEL. */
    method Delete(runId: string, del: Reply) returns (err: Option<string>)
      modifies this
      ensures SetResult(State(), err) == DeleteOn(old(State()), runId, del)
    {
      var key := RedisKey(runId);
      if del.Fail? {
        return Some(del.msg);
      }
      values := values - {key};
      ttl := ttl - {key};
      return None;
    }
  }
}
