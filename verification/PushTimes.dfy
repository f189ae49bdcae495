/** When the flow controller pushes, told from its puts and checks alone. */
module PushTimes {
  import opened EventTables
  import opened HeadCache
  import opened FlowControl

  /** Operation `i` puts a head for the user. */
  predicate PutAt(ops: seq<Op>, i: nat, u: Uid)
  {
    i < |ops| && ops[i].PutOp? && u in ops[i].data
  }

  /** What operation `i` pushes. */
  function Pushes(ops: seq<Op>, i: nat): Cache
    requires i < |ops|
  {
    var pushes := Run(ops[..i + 1]).pushes;
    if |pushes| > |Run(ops[..i]).pushes| then pushes[|pushes| - 1].entries else map[]
  }

  /** Operation `i` pushes to the user. */
  predicate PushedAt(ops: seq<Op>, i: nat, u: Uid)
  {
    i < |ops| && u in Pushes(ops, i)
  }

  ghost predicate PushedBetween(ops: seq<Op>, i: nat, j: nat, u: Uid)
  {
    exists l: nat :: i < l < j && PushedAt(ops, l, u)
  }

  /** Put `i` is the first for the user since the last push to the user. */
  ghost predicate WaitingSince(ops: seq<Op>, i: nat, u: Uid)
  {
    && PutAt(ops, i, u) && !PushedBetween(ops, i, |ops|, u)
    && forall j: nat | j < i && PutAt(ops, j, u) :: PushedBetween(ops, j, i, u)
  }

  /** How many puts name the user from operation `i` on. */
  function PutsSince(ops: seq<Op>, i: nat, u: Uid): nat
  {
    if |ops| <= i then 0
    else PutsSince(ops[..|ops| - 1], i, u) + if PutAt(ops, |ops| - 1, u) then 1 else 0
  }

  /** The number last put for the user. */
  function LastPut(ops: seq<Op>, u: Uid): int
  {
    if ops == [] then 0
    else if PutAt(ops, |ops| - 1, u) then ops[|ops| - 1].data[u]
    else LastPut(ops[..|ops| - 1], u)
  }

  // ----- one more operation -----

  lemma Earlier(ops: seq<Op>, n: nat, j: nat, u: Uid)
    requires j < n <= |ops|
    ensures PutAt(ops[..n], j, u) <==> PutAt(ops, j, u)
    ensures PushedAt(ops[..n], j, u) <==> PushedAt(ops, j, u)
  {
    assert ops[..n][..j] == ops[..j] && ops[..n][..j + 1] == ops[..j + 1];
  }

  lemma EarlierBetween(ops: seq<Op>, n: nat, i: nat, j: nat, u: Uid)
    requires j <= n <= |ops|
    ensures PushedBetween(ops[..n], i, j, u) <==> PushedBetween(ops, i, j, u)
  {
    forall l: nat | i < l < j ensures PushedAt(ops[..n], l, u) <==> PushedAt(ops, l, u) {
      Earlier(ops, n, l, u);
    }
  }

  lemma PutPushesNothing(ops: seq<Op>, i: nat)
    requires i < |ops| && ops[i].PutOp?
    ensures Pushes(ops, i) == map[]
  {
    assert ops[..i + 1][..i] == ops[..i];
  }

  /** An operation that does not push to the user leaves open what was open. */
  lemma StillWaiting(ops: seq<Op>, i: nat, u: Uid)
    requires ops != [] && i < |ops| - 1 && !PushedAt(ops, |ops| - 1, u)
    ensures WaitingSince(ops[..|ops| - 1], i, u) <==> WaitingSince(ops, i, u)
  {
    var n := |ops| - 1;
    Earlier(ops, n, i, u);
    EarlierBetween(ops, n, i, n, u);
    assert PushedBetween(ops, i, n + 1, u) <==> PushedBetween(ops, i, n, u);
    forall j: nat | j < i
      ensures PutAt(ops[..n], j, u) <==> PutAt(ops, j, u)
      ensures PushedBetween(ops[..n], j, i, u) <==> PushedBetween(ops, j, i, u)
    {
      Earlier(ops, n, j, u);
      EarlierBetween(ops, n, j, i, u);
    }
  }

  /** Behind a put that was never pushed stands a first one. */
  lemma {:induction false} SomeFirst(ops: seq<Op>, j: nat, u: Uid)
    requires PutAt(ops, j, u) && !PushedBetween(ops, j, |ops|, u)
    ensures exists i: nat :: WaitingSince(ops, i, u)
  {
    if i: nat :| i < j && PutAt(ops, i, u) && !PushedBetween(ops, i, j, u) {
      PutPushesNothing(ops, j);
      forall l: nat | i < l < |ops| ensures !PushedAt(ops, l, u) {
        assert l > j ==> !PushedAt(ops, l, u);
      }
      SomeFirst(ops, i, u);
    } else {
      assert WaitingSince(ops, j, u);
    }
  }

  lemma OnlyOneFirst(ops: seq<Op>, i: nat, j: nat, u: Uid)
    requires WaitingSince(ops, i, u) && WaitingSince(ops, j, u)
    ensures i == j
  {
  }

  /** What a check adds to the pushes. */
  function Sent(f: Flow, f': Flow): Cache
  {
    if |f'.pushes| > |f.pushes| then f'.pushes[|f'.pushes| - 1].entries else map[]
  }

  lemma CheckSends(f: Flow, now: Instant)
    ensures Sent(f, FlowCheck(f, now)) == DueEntries(f.cache, now)
    ensures FlowCheck(f, now).cache == Waiting(f.cache, now)
  {
    if DueEntries(f.cache, now) == map[] {
      forall u | u in f.cache ensures !Due(f.cache[u], now) {
        assert u !in DueEntries(f.cache, now);
      }
      assert Waiting(f.cache, now) == f.cache;
    }
  }

  /** A check pushes to the users whose entries are due, and to nobody else. */
  lemma CheckPushes(ops: seq<Op>, u: Uid)
    requires ops != [] && ops[|ops| - 1].CheckOp?
    ensures var c, now := Run(ops[..|ops| - 1]).cache, ops[|ops| - 1].time;
            && (PushedAt(ops, |ops| - 1, u) <==> u in c && Due(c[u], now))
            && (PushedAt(ops, |ops| - 1, u) ==> Pushes(ops, |ops| - 1)[u] == c[u])
            && (u in Run(ops).cache <==> u in c && !Due(c[u], now))
            && (u in Run(ops).cache ==> Run(ops).cache[u] == c[u])
  {
    var n := |ops| - 1;
    assert ops[..n + 1] == ops;
    CheckSends(Run(ops[..n]), ops[n].time);
    assert Pushes(ops, n) == Sent(Run(ops[..n]), Run(ops));
  }

  // ----- the cache entry -----

  /** What the user's entry is, if there is one. */
  ghost predicate EntryOk(ops: seq<Op>, u: Uid)
  {
    && (u in Run(ops).cache ==> exists i: nat :: WaitingSince(ops, i, u))
    && forall i: nat | WaitingSince(ops, i, u) :: EntryAt(Run(ops).cache, ops, i, u)
  }

  ghost predicate EntryAt(c: Cache, ops: seq<Op>, i: nat, u: Uid)
    requires i < |ops|
  {
    u in c && c[u] == Entry(LastPut(ops, u), PutsSince(ops, i, u), ops[i].time)
  }

  /** No put and no push for the user: an open put stays what it was. */
  lemma SameEntry(ops: seq<Op>, i: nat, u: Uid, c: Cache, c': Cache)
    requires ops != [] && i < |ops| - 1 && !PutAt(ops, |ops| - 1, u) && !PushedAt(ops, |ops| - 1, u)
    requires (u in c <==> u in c') && (u in c ==> c'[u] == c[u])
    ensures WaitingSince(ops[..|ops| - 1], i, u) <==> WaitingSince(ops, i, u)
    ensures EntryAt(c, ops[..|ops| - 1], i, u) <==> EntryAt(c', ops, i, u)
  {
    StillWaiting(ops, i, u);
  }

  /** The user is put again. */
  lemma PutAgain(ops: seq<Op>, u: Uid, i: nat)
    requires ops != [] && PutAt(ops, |ops| - 1, u) && WaitingSince(ops[..|ops| - 1], i, u)
    requires EntryAt(Run(ops[..|ops| - 1]).cache, ops[..|ops| - 1], i, u)
    ensures WaitingSince(ops, i, u) && EntryAt(Run(ops).cache, ops, i, u)
  {
    PutPushesNothing(ops, |ops| - 1);
    StillWaiting(ops, i, u);
  }

  lemma PutOk(ops: seq<Op>, u: Uid)
    requires ops != [] && PutAt(ops, |ops| - 1, u) && EntryOk(ops[..|ops| - 1], u)
    ensures EntryOk(ops, u)
  {
    var n := |ops| - 1;
    var first: nat := n;
    if u in Run(ops[..n]).cache {
      first :| WaitingSince(ops[..n], first, u);
      PutAgain(ops, u, first);
    } else {
      FirstPut(ops, u);
      assert PutsSince(ops[..n], n, u) == 0;
    }
    forall j: nat | WaitingSince(ops, j, u) ensures j == first {
      OnlyOneFirst(ops, first, j, u);
    }
  }

  lemma FirstPut(ops: seq<Op>, u: Uid)
    requires ops != [] && PutAt(ops, |ops| - 1, u) && EntryOk(ops[..|ops| - 1], u) && u !in Run(ops[..|ops| - 1]).cache
    ensures WaitingSince(ops, |ops| - 1, u)
  {
    var n := |ops| - 1;
    forall j: nat | j < n && PutAt(ops, j, u) ensures PushedBetween(ops, j, n, u) {
      Earlier(ops, n, j, u);
      EarlierBetween(ops, n, j, n, u);
      if !PushedBetween(ops[..n], j, n, u) {
        SomeFirst(ops[..n], j, u);
      }
    }
  }

  /** The last operation neither puts for the user nor pushes to the user. */
  lemma UntouchedOk(ops: seq<Op>, u: Uid)
    requires ops != [] && !PutAt(ops, |ops| - 1, u) && !PushedAt(ops, |ops| - 1, u) && EntryOk(ops[..|ops| - 1], u)
    requires var c, c' := Run(ops[..|ops| - 1]).cache, Run(ops).cache;
             (u in c <==> u in c') && (u in c ==> c'[u] == c[u])
    ensures EntryOk(ops, u)
  {
    var n := |ops| - 1;
    var c, c' := Run(ops[..n]).cache, Run(ops).cache;
    forall i: nat | WaitingSince(ops, i, u) ensures EntryAt(c', ops, i, u) {
      SameEntry(ops, i, u, c, c');
    }
    if u in c' {
      var i: nat :| WaitingSince(ops[..n], i, u);
      SameEntry(ops, i, u, c, c');
    }
  }

  lemma PushedOk(ops: seq<Op>, u: Uid)
    requires ops != [] && PushedAt(ops, |ops| - 1, u) && u !in Run(ops).cache
    ensures EntryOk(ops, u)
  {
    forall i: nat | i < |ops| - 1 ensures !WaitingSince(ops, i, u) {
      assert PushedBetween(ops, i, |ops|, u);
    }
    assert !PutAt(ops, |ops| - 1, u) by {
      if ops[|ops| - 1].PutOp? {
        PutPushesNothing(ops, |ops| - 1);
      }
    }
  }

  /**
   Over every run of puts and checks: a user has a cache entry exactly if some put was not pushed yet. The entry holds
   the number put last, how often one was put since the last push to the user, and when the first of those was put.
   */
  lemma {:induction false} EntryIs(ops: seq<Op>, u: Uid)
    ensures EntryOk(ops, u)
  {
    if ops != [] {
      var n := |ops| - 1;
      EntryIs(ops[..n], u);
      if PutAt(ops, n, u) {
        PutOk(ops, u);
      } else if ops[n].PutOp? {
        PutPushesNothing(ops, |ops| - 1);
        UntouchedOk(ops, u);
      } else {
        CheckPushes(ops, u);
        if PushedAt(ops, n, u) {
          PushedOk(ops, u);
        } else {
          UntouchedOk(ops, u);
        }
      }
    }
  }

  /** Put `i` and those after it, not pushed yet, are to be pushed at `now`. */
  predicate IsDue(ops: seq<Op>, i: nat, u: Uid, now: Instant)
    requires i < |ops|
  {
    now - ops[i].time > 5 * SECOND || PutsSince(ops, i, u) * SECOND <= now - ops[i].time
  }

  /**
   Over every run of puts and checks: a check pushes to a user if and only if there was a put for the user since the
   last push, and either the first of those lies more than five seconds back, or there were no more of them than
   seconds since. What is pushed is the number put last.
   */
  lemma PushesIff(ops: seq<Op>, u: Uid)
    requires ops != [] && ops[|ops| - 1].CheckOp?
    ensures var n, now := |ops| - 1, ops[|ops| - 1].time;
            PushedAt(ops, n, u) <==> exists i: nat :: WaitingSince(ops[..n], i, u) && IsDue(ops[..n], i, u, now)
    ensures PushedAt(ops, |ops| - 1, u) ==> Pushes(ops, |ops| - 1)[u].headSeq == LastPut(ops, u)
  {
    var n, now := |ops| - 1, ops[|ops| - 1].time;
    EntryIs(ops[..n], u);
    CheckPushes(ops, u);
    forall i: nat | WaitingSince(ops[..n], i, u) ensures IsDue(ops[..n], i, u, now) <==> PushedAt(ops, n, u) {
    }
  }

  /** After a check nobody waits whose first put since the last push lies more than five seconds back. */
  lemma NobodyWaitsLong(ops: seq<Op>, u: Uid, i: nat)
    requires ops != [] && ops[|ops| - 1].CheckOp? && WaitingSince(ops, i, u)
    ensures ops[|ops| - 1].time - ops[i].time <= 5 * SECOND
  {
    var n := |ops| - 1;
    EntryIs(ops[..n], u);
    EntryIs(ops, u);
    CheckPushes(ops, u);
  }

  /** A put panics exactly if it does not raise the number last put for a user with a put not pushed yet. */
  lemma PutPanicsIff(ops: seq<Op>, data: map<Uid, int>)
    ensures PutPanics(Run(ops).cache, data) <==>
            exists u, i: nat :: u in data && WaitingSince(ops, i, u) && data[u] <= LastPut(ops, u)
  {
    var c := Run(ops).cache;
    if u :| u in data && u in c && data[u] <= c[u].headSeq {
      EntryIs(ops, u);
      var i: nat :| WaitingSince(ops, i, u);
    }
    if u, i: nat :| u in data && WaitingSince(ops, i, u) && data[u] <= LastPut(ops, u) {
      EntryIs(ops, u);
    }
  }
}
