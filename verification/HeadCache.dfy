/**
 The flow controller between the event store and the push channel (`cluster/eventstore.go`):
 head sequences are cached per user, and a periodic check pushes those that are due.
 Time is in nanoseconds. `Put` and `Check` are atomic steps.
 */
module HeadCache {
  import opened EventTables
  import opened Iteration

  const CACHE_TTL: nat := 5 * SECOND

  /** The head sequence waiting for one user, how often it was raised, and since when it waits. */
  datatype Entry = Entry(headSeq: int, counter: nat, cacheTime: Instant)

  type Cache = map<Uid, Entry>

  /** At most one update per second on average, or waiting too long. */
  predicate Due(e: Entry, now: Instant)
  {
    e.counter * SECOND <= now - e.cacheTime || now - e.cacheTime > CACHE_TTL
  }

  /** The incoming number is not bigger than a cached one. */
  predicate PutPanics(c: Cache, data: map<Uid, int>)
  {
    exists u | u in data :: u in c && data[u] <= c[u].headSeq
  }

  function PutOne(c: Cache, u: Uid, s: int, now: Instant): Entry
  {
    if u in c then Entry(s, c[u].counter + 1, c[u].cacheTime) else Entry(s, 1, now)
  }

  /** The cache after the users in `done` were put. */
  function PutSome(c: Cache, data: map<Uid, int>, done: set<Uid>, now: Instant): Cache
    requires done <= data.Keys
  {
    map u | u in c.Keys + done :: if u in done then PutOne(c, u, data[u], now) else c[u]
  }

  function PutAll(c: Cache, data: map<Uid, int>, now: Instant): Cache
  {
    PutSome(c, data, data.Keys, now)
  }

  function DueEntries(c: Cache, now: Instant): Cache
  {
    map u | u in c && Due(c[u], now) :: c[u]
  }

  function Waiting(c: Cache, now: Instant): Cache
  {
    map u | u in c && !Due(c[u], now) :: c[u]
  }

  function Heads(c: Cache): map<Uid, int>
  {
    map u | u in c :: c[u].headSeq
  }

  class HeadCache {
    var kv: Cache
    var sending: bool

    constructor ()
      ensures kv == map[] && !sending
    {
      kv, sending := map[], false;
    }

    method Put(data: map<Uid, int>, now: Instant) returns (panicked: bool)
      modifies `kv
      ensures panicked <==> exists u | u in data && u in old(kv) :: data[u] <= old(kv)[u].headSeq
      ensures !panicked ==> kv == PutAll(old(kv), data, now)
    {
      var left := data.Keys;
      while left != {}
        invariant left <= data.Keys
        invariant forall u | u in data && u !in left :: u in old(kv) ==> data[u] > old(kv)[u].headSeq
        invariant kv == PutSome(old(kv), data, data.Keys - left, now)
      {
        var uid := NextKey(left);
        var s := data[uid];
        if uid in kv {
          var v := kv[uid];
          if v.headSeq < s {
            kv := kv[uid := Entry(s, v.counter + 1, v.cacheTime)];
          } else {
            return true;
          }
        } else {
          kv := kv[uid := Entry(s, 1, now)];
        }
        left := left - {uid};
      }
      assert data.Keys - left == data.Keys;
      return false;
    }

    /** The message put on the push channel; none is sent when it is empty. */
    method Check(now: Instant) returns (out: map<Uid, int>)
      modifies this
      ensures sending == old(sending)
      ensures old(sending) ==> kv == old(kv) && out == map[]
      ensures !old(sending) ==> kv == Waiting(old(kv), now) && out == Heads(DueEntries(old(kv), now))
    {
      out := map[];
      if sending {
        return;
      }
      sending := true;
      var left := kv.Keys;
      while left != {}
        invariant left <= old(kv).Keys
        invariant kv == map u | u in old(kv) && (u in left || !Due(old(kv)[u], now)) :: old(kv)[u]
        invariant out == map u | u in old(kv) && u !in left && Due(old(kv)[u], now) :: old(kv)[u].headSeq
      {
        var uid := NextKey(left);
        var v := kv[uid];
        if Due(v, now) {
          out := out[uid := v.headSeq];
          kv := kv - {uid};
        }
        left := left - {uid};
      }
      sending := false;
    }
  }
}
