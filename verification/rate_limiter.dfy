/**
 * The in-process, per-key rate limiter of the contact endpoint: at most five
 * admitted requests per key in a one-hour window. The process-wide map is
 * explicit state and the clock is a parameter.
 */
module RateLimiter {
  import opened Wrappers

  /** One hour in milliseconds. */
  const WindowMs: int := 60 * 60 * 1000

  /** Requests admitted per key and window. */
  const MaxRequests: int := 5

  /** A key's record: requests admitted in the current window and when the window ends. */
  datatype Entry = Entry(count: int, resetAt: int)

  /** The process-wide map from client key to record. */
  type Store = map<string, Entry>

  /**
   * The result of one check: whether the request may proceed, the map afterwards,
   * and the time at which a deletion of the key was scheduled by this call, if any.
   */
  datatype Verdict = Verdict(allowed: bool, store: Store, evictAt: Option<int>)

  /** Every record holds between one and MaxRequests admitted requests. */
  ghost predicate WellFormed(store: Store) {
    forall k :: k in store ==> 1 <= store[k].count <= MaxRequests
  }

  /** `store'` agrees with `store` on every key other than `key`. */
  ghost predicate SameExcept(store: Store, store': Store, key: string) {
    forall k :: k != key ==> (k in store' <==> k in store) && (k in store ==> store'[k] == store[k])
  }

  /** The request at `now` opens a new window: no record, or the record's window has strictly passed. */
  predicate OpensWindow(store: Store, key: string, now: int) {
    key !in store || now > store[key].resetAt
  }

  /** checkRateLimit(key) at time `now`. */
  function Check(store: Store, key: string, now: int): (v: Verdict)
    ensures SameExcept(store, v.store, key)
    ensures key in v.store
    ensures v.allowed <==> OpensWindow(store, key, now) || store[key].count < MaxRequests
    ensures !v.allowed ==> v.store == store
    ensures v.allowed && OpensWindow(store, key, now) ==> v.store[key] == Entry(1, now + WindowMs)
    ensures v.allowed && !OpensWindow(store, key, now) ==>
              v.store[key] == Entry(store[key].count + 1, store[key].resetAt)
    ensures v.evictAt.Some? <==> key !in store
    ensures v.evictAt.Some? ==> v.evictAt.value == now + WindowMs
  {
    if key !in store then
      Verdict(true, store[key := Entry(1, now + WindowMs)], Some(now + WindowMs))
    else
      var record := store[key];
      if now > record.resetAt then
        Verdict(true, store[key := Entry(1, now + WindowMs)], None)
      else if record.count >= MaxRequests then
        Verdict(false, store, None)
      else
        Verdict(true, store[key := record.(count := record.count + 1)], None)
  }

  /** The scheduled deletion of a key's record (the timer callback), as an explicit step. */
  function Evict(store: Store, key: string): (store': Store)
    ensures key !in store'
    ensures SameExcept(store, store', key)
  {
    store - {key}
  }

  /** Checks never break the bound on a record's count. */
  lemma CheckPreservesWellFormed(store: Store, key: string, now: int)
    requires WellFormed(store)
    ensures WellFormed(Check(store, key, now).store)
  {
    var v := Check(store, key, now);
    forall k | k in v.store ensures 1 <= v.store[k].count <= MaxRequests {
      if k != key {
        assert v.store[k] == store[k];
      }
    }
  }

  /** An admitted request always changes the key's record: it uses up a slot or opens a window. */
  lemma AdmissionConsumesSlot(store: Store, key: string, now: int)
    requires Check(store, key, now).allowed
    ensures key !in store || Check(store, key, now).store[key] != store[key]
  {
  }

  /** After an eviction the key starts afresh, whatever its count was. */
  lemma EvictedKeyStartsAfresh(store: Store, key: string, now: int)
    ensures Check(Evict(store, key), key, now).allowed
    ensures Check(Evict(store, key), key, now).store[key] == Entry(1, now + WindowMs)
  {
  }

  /** Once the window has strictly passed, a full record is replaced by a fresh one. */
  lemma ExpiredWindowReadmits(store: Store, key: string, now: int)
    requires key in store && now > store[key].resetAt
    ensures Check(store, key, now).allowed
    ensures Check(store, key, now).store[key].count == 1
    ensures Check(store, key, now).evictAt == None
  {
  }

  /** At exactly `resetAt` the old window still applies: a full record is still refused. */
  lemma BoundaryInstantStillLimited(store: Store, key: string)
    requires key in store && store[key].count >= MaxRequests
    ensures !Check(store, key, store[key].resetAt).allowed
  {
  }

  /** The decisions of successive checks for one key at the given times, and the final map. */
  function Replay(store: Store, key: string, times: seq<int>): (r: (seq<bool>, Store))
    ensures |r.0| == |times|
    decreases |times|
  {
    if times == [] then ([], store)
    else
      var v := Check(store, key, times[0]);
      var rest := Replay(v.store, key, times[1..]);
      ([v.allowed] + rest.0, rest.1)
  }

  /**
   * Inside one window (every time strictly before the record's `resetAt`), a key holding
   * `count` admissions gets exactly MaxRequests - count more; every later request is refused.
   */
  lemma {:induction false} BurstWithinWindow(store: Store, key: string, times: seq<int>)
    requires key in store && 1 <= store[key].count <= MaxRequests
    requires forall i :: 0 <= i < |times| ==> times[i] < store[key].resetAt
    ensures forall i :: 0 <= i < |times| ==>
              Replay(store, key, times).0[i] == (i < MaxRequests - store[key].count)
    decreases |times|
  {
    if times != [] {
      var v := Check(store, key, times[0]);
      var r := Replay(store, key, times);
      var rest := Replay(v.store, key, times[1..]);
      assert r.0 == [v.allowed] + rest.0;
      if store[key].count < MaxRequests {
        assert v.store[key] == Entry(store[key].count + 1, store[key].resetAt);
        BurstWithinWindow(v.store, key, times[1..]);
        forall i | 0 <= i < |times|
          ensures r.0[i] == (i < MaxRequests - store[key].count)
        {
          if i > 0 {
            assert r.0[i] == rest.0[i - 1];
            assert times[1..][i - 1] == times[i];
          }
        }
      } else {
        assert v.store == store;
        BurstWithinWindow(store, key, times[1..]);
        forall i | 0 <= i < |times|
          ensures r.0[i] == (i < MaxRequests - store[key].count)
        {
          if i > 0 {
            assert r.0[i] == rest.0[i - 1];
            assert times[1..][i - 1] == times[i];
          }
        }
      }
    }
  }

  /**
   * From an empty map, requests for one key all strictly before the end of the
   * window opened by the first: exactly the first MaxRequests are admitted.
   */
  lemma FirstWindowAdmitsFive(key: string, times: seq<int>)
    requires times != []
    requires forall i :: 0 <= i < |times| ==> times[i] < times[0] + WindowMs
    ensures forall i :: 0 <= i < |times| ==> Replay(map[], key, times).0[i] == (i < MaxRequests)
  {
    var v := Check(map[], key, times[0]);
    assert v.store[key] == Entry(1, times[0] + WindowMs);
    var tail := times[1..];
    assert forall i :: 0 <= i < |tail| ==> tail[i] == times[i + 1];
    BurstWithinWindow(v.store, key, tail);
    var r := Replay(map[], key, times);
    var rest := Replay(v.store, key, tail);
    assert r.0 == [true] + rest.0;
    forall i | 0 <= i < |times| ensures r.0[i] == (i < MaxRequests) {
      if i > 0 {
        assert r.0[i] == rest.0[i - 1];
      }
    }
  }

  /** The six-request case: five admitted, the sixth refused. */
  lemma SixthRequestInWindowRefused(key: string, times: seq<int>)
    requires |times| == 6
    requires forall i :: 0 <= i < 6 ==> times[i] < times[0] + WindowMs
    ensures Replay(map[], key, times).0 == [true, true, true, true, true, false]
  {
    FirstWindowAdmitsFive(key, times);
  }
}
