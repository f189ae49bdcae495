/**
 What the head cache guarantees over whole runs of one process: no panic, pushes at least a
 second apart with growing heads, and no update lost or counted twice.
 */
module FlowControl {
  import opened EventTables
  import opened HeadCache

  datatype PutRecord = PutRecord(time: Instant, data: map<Uid, int>)
  datatype PushRecord = PushRecord(time: Instant, entries: Cache)

  /** The cache with the history of one process: what was put, and which entries were pushed. */
  datatype Flow = Flow(cache: Cache, puts: seq<PutRecord>, pushes: seq<PushRecord>)

  const START := Flow(map[], [], [])

  function FlowPut(f: Flow, data: map<Uid, int>, now: Instant): Flow
  {
    f.(cache := PutAll(f.cache, data, now), puts := f.puts + [PutRecord(now, data)])
  }

  function FlowCheck(f: Flow, now: Instant): Flow
  {
    if DueEntries(f.cache, now) == map[] then f
    else f.(cache := Waiting(f.cache, now), pushes := f.pushes + [PushRecord(now, DueEntries(f.cache, now))])
  }

  /** How many puts named the user. */
  function PutCount(puts: seq<PutRecord>, u: Uid): nat
  {
    if puts == [] then 0
    else PutCount(puts[..|puts| - 1], u) + if u in puts[|puts| - 1].data then 1 else 0
  }

  /** The counters pushed for the user, added up. */
  function PushedCount(pushes: seq<PushRecord>, u: Uid): nat
  {
    if pushes == [] then 0
    else PushedCount(pushes[..|pushes| - 1], u) +
         if u in pushes[|pushes| - 1].entries then pushes[|pushes| - 1].entries[u].counter else 0
  }

  function PendingCount(c: Cache, u: Uid): nat
  {
    if u in c then c[u].counter else 0
  }

  /** The largest number put for the user, 0 before the first. */
  function LargestPut(puts: seq<PutRecord>, u: Uid): int
  {
    if puts == [] then 0
    else
      var before := LargestPut(puts[..|puts| - 1], u);
      var data := puts[|puts| - 1].data;
      if u in data && data[u] > before then data[u] else before
  }

  function LargestPush(pushes: seq<PushRecord>, u: Uid): int
  {
    if pushes == [] then 0
    else
      var before := LargestPush(pushes[..|pushes| - 1], u);
      var entries := pushes[|pushes| - 1].entries;
      if u in entries && entries[u].headSeq > before then entries[u].headSeq else before
  }

  /** The put raises the head of every user it names. */
  predicate Raises(puts: seq<PutRecord>, data: map<Uid, int>)
  {
    forall u | u in data :: data[u] > LargestPut(puts, u)
  }

  /** Between two pushes for a user the head grows and a second passes. */
  ghost predicate Spaced(pushes: seq<PushRecord>)
  {
    forall i, j, u :: 0 <= i < j < |pushes| && u in pushes[i].entries && u in pushes[j].entries ==>
      && pushes[i].entries[u].headSeq < pushes[j].entries[u].headSeq
      && pushes[i].time + SECOND <= pushes[j].time
  }

  /** No update is lost or pushed twice, and pushes and the waiting entry together show the largest put. */
  ghost predicate Conserves(f: Flow, u: Uid)
  {
    && PutCount(f.puts, u) == PushedCount(f.pushes, u) + PendingCount(f.cache, u)
    && LargestPut(f.puts, u) == (if u in f.cache then f.cache[u].headSeq else LargestPush(f.pushes, u))
    && (u in f.cache ==> LargestPush(f.pushes, u) < f.cache[u].headSeq)
  }

  ghost predicate Waits(f: Flow, u: Uid, now: Instant)
    requires u in f.cache
  {
    && f.cache[u].counter >= 1
    && f.cache[u].cacheTime <= now
    && forall i :: 0 <= i < |f.pushes| && u in f.pushes[i].entries ==> f.pushes[i].time <= f.cache[u].cacheTime
  }

  ghost predicate Steady(f: Flow, now: Instant)
  {
    && (forall u :: Conserves(f, u))
    && (forall u | u in f.cache :: Waits(f, u, now))
    && (forall i :: 0 <= i < |f.pushes| ==> f.pushes[i].time <= now)
    && (forall i, u :: 0 <= i < |f.pushes| && u in f.pushes[i].entries ==>
          f.pushes[i].entries[u].headSeq <= LargestPush(f.pushes, u))
    && Spaced(f.pushes)
  }

  lemma SteadyLater(f: Flow, now: Instant, later: Instant)
    requires Steady(f, now) && now <= later
    ensures Steady(f, later)
  {
    forall u | u in f.cache ensures Waits(f, u, later) {
      assert Waits(f, u, now);
    }
  }

  /** A put that raises the heads does not panic and keeps the invariant. */
  lemma PutKeepsSteady(f: Flow, data: map<Uid, int>, now: Instant)
    requires Steady(f, now) && Raises(f.puts, data)
    ensures !PutPanics(f.cache, data)
    ensures Steady(FlowPut(f, data, now), now)
  {
    assert forall u | u in data :: Conserves(f, u);
    var f' := FlowPut(f, data, now);
    assert f'.puts[..|f'.puts| - 1] == f.puts;
    forall u ensures Conserves(f', u) {
      assert Conserves(f, u);
    }
    forall u | u in f'.cache ensures Waits(f', u, now) {
      if u in f.cache {
        assert Waits(f, u, now);
      }
    }
  }

  lemma CheckConserves(f: Flow, now: Instant, u: Uid)
    requires Conserves(f, u)
    ensures Conserves(FlowCheck(f, now), u)
  {
    var f' := FlowCheck(f, now);
    if f' != f {
      assert f'.pushes[..|f'.pushes| - 1] == f.pushes;
    }
  }

  /** An entry pushed now comes after every earlier push for its user, by a second and with a larger head. */
  lemma PushComesLater(f: Flow, now: Instant, i: nat, u: Uid)
    requires Steady(f, now) && i < |f.pushes| && u in f.pushes[i].entries && u in DueEntries(f.cache, now)
    ensures f.pushes[i].entries[u].headSeq < f.cache[u].headSeq && f.pushes[i].time + SECOND <= now
  {
    assert Conserves(f, u) && Waits(f, u, now) && Due(f.cache[u], now);
  }

  lemma CheckSpaces(f: Flow, now: Instant)
    requires Steady(f, now)
    ensures Spaced(FlowCheck(f, now).pushes)
  {
    var n, pushes := |f.pushes|, FlowCheck(f, now).pushes;
    forall i, j, u | 0 <= i < j < |pushes| && u in pushes[i].entries && u in pushes[j].entries
      ensures pushes[i].entries[u].headSeq < pushes[j].entries[u].headSeq && pushes[i].time + SECOND <= pushes[j].time
    {
      assert pushes[i] == f.pushes[i];
      if j < n {
        assert pushes[j] == f.pushes[j];
      } else {
        PushComesLater(f, now, i, u);
      }
    }
  }

  lemma CheckBounds(f: Flow, now: Instant)
    requires Steady(f, now)
    ensures var pushes := FlowCheck(f, now).pushes;
            forall i, u :: 0 <= i < |pushes| && u in pushes[i].entries ==> pushes[i].entries[u].headSeq <= LargestPush(pushes, u)
  {
    var n, pushes := |f.pushes|, FlowCheck(f, now).pushes;
    assert pushes[..n] == f.pushes;
    forall i, u | 0 <= i < |pushes| && u in pushes[i].entries
      ensures pushes[i].entries[u].headSeq <= LargestPush(pushes, u)
    {
      assert i < n ==> pushes[i] == f.pushes[i];
    }
  }

  lemma CheckKeepsSteady(f: Flow, now: Instant)
    requires Steady(f, now)
    ensures Steady(FlowCheck(f, now), now)
  {
    var f' := FlowCheck(f, now);
    forall u ensures Conserves(f', u) {
      CheckConserves(f, now, u);
    }
    CheckSpaces(f, now);
    CheckBounds(f, now);
    if f' != f {
      forall u | u in f'.cache ensures Waits(f', u, now) {
        assert Waits(f, u, now);
      }
    }
  }

  datatype Op = PutOp(data: map<Uid, int>, time: Instant) | CheckOp(time: Instant)

  function Apply(f: Flow, op: Op): Flow
  {
    match op
    case PutOp(data, now) => FlowPut(f, data, now)
    case CheckOp(now) => FlowCheck(f, now)
  }

  function Run(ops: seq<Op>): Flow
  {
    if ops == [] then START else Apply(Run(ops[..|ops| - 1]), ops[|ops| - 1])
  }

  ghost predicate MonotoneClock(ops: seq<Op>)
  {
    forall i, j :: 0 <= i < j < |ops| ==> ops[i].time <= ops[j].time
  }

  /** Every put raises the heads it names. */
  ghost predicate Rising(ops: seq<Op>)
  {
    forall i :: 0 <= i < |ops| && ops[i].PutOp? ==> Raises(Run(ops[..i]).puts, ops[i].data)
  }

  lemma {:induction false} RunKeepsSteady(ops: seq<Op>)
    requires MonotoneClock(ops) && Rising(ops) && ops != []
    ensures Steady(Run(ops), ops[|ops| - 1].time)
  {
    var n := |ops| - 1;
    var before := Run(ops[..n]);
    var now := ops[n].time;
    if n > 0 {
      assert forall i :: 0 <= i < n ==> ops[..n][..i] == ops[..i];
      RunKeepsSteady(ops[..n]);
      SteadyLater(before, ops[n - 1].time, now);
    }
    if ops[n].PutOp? {
      PutKeepsSteady(before, ops[n].data, now);
    } else {
      CheckKeepsSteady(before, now);
    }
  }

  lemma {:induction false} PrefixRuns(ops: seq<Op>, i: nat)
    requires MonotoneClock(ops) && Rising(ops) && i < |ops|
    ensures Steady(Run(ops[..i]), ops[i].time)
  {
    if i > 0 {
      assert forall j :: 0 <= j < i ==> ops[..i][..j] == ops[..j];
      RunKeepsSteady(ops[..i]);
      SteadyLater(Run(ops[..i]), ops[i - 1].time, ops[i].time);
    }
  }

  /**
   Flow control over every run of puts and checks under a monotone clock, when each put
   raises the heads it names: no put panics; pushes for one user are at least a second apart
   and their heads grow; every put is counted once, as pushed or as waiting; and the largest
   put is the waiting head, or else the last one pushed.
   */
  lemma FlowControl(ops: seq<Op>)
    requires MonotoneClock(ops) && Rising(ops)
    ensures Spaced(Run(ops).pushes)
    ensures forall u :: Conserves(Run(ops), u)
    ensures forall i :: 0 <= i < |ops| && ops[i].PutOp? ==> !PutPanics(Run(ops[..i]).cache, ops[i].data)
  {
    if ops != [] {
      RunKeepsSteady(ops);
    }
    forall i | 0 <= i < |ops| && ops[i].PutOp? ensures !PutPanics(Run(ops[..i]).cache, ops[i].data) {
      PrefixRuns(ops, i);
      PutKeepsSteady(Run(ops[..i]), ops[i].data, ops[i].time);
    }
  }

  /** After a check only entries younger than five seconds wait, and only those raised more than once a second. */
  lemma CheckLeavesTheBusy(f: Flow, now: Instant, u: Uid)
    requires u in FlowCheck(f, now).cache
    ensures now - f.cache[u].cacheTime <= CACHE_TTL && f.cache[u].counter * SECOND > now - f.cache[u].cacheTime
    ensures FlowCheck(f, now).cache[u] == f.cache[u]
  {
    assert u in f.cache;
    assert Due(f.cache[u], now) ==> u in DueEntries(f.cache, now);
  }
}
