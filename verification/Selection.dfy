/**
 Choosing the sessions to kick off, as `sessionstore.go` and `standalone.go` both do it: collect a
 user's sessions, sort them by create time, and take as many from the front as exceed the quota.
 */
module Selection {
  import opened Iteration
  import opened Sessions

  function SidsOf(slice: seq<Session>): set<Sid>
  {
    set i | 0 <= i < |slice| :: slice[i].sid
  }

  /** `slice` lists the sessions `sids` of `t`, each once. */
  ghost predicate Lists(slice: seq<Session>, t: Table, sids: set<Sid>)
  {
    && SidsOf(slice) == sids
    && (forall i :: 0 <= i < |slice| ==> slice[i].sid in t && t[slice[i].sid] == slice[i])
    && (forall i, j :: 0 <= i < j < |slice| ==> slice[i].sid != slice[j].sid)
  }

  ghost predicate Sorted(slice: seq<Session>)
  {
    forall i, j :: 0 <= i < j < |slice| ==> slice[i].createTime <= slice[j].createTime
  }

  lemma SidsSplit(a: seq<Session>, b: seq<Session>)
    ensures SidsOf(a + b) == SidsOf(a) + SidsOf(b)
  {
    forall s | s in SidsOf(a + b) ensures s in SidsOf(a) + SidsOf(b) {
      var i :| 0 <= i < |a + b| && (a + b)[i].sid == s;
      assert i < |a| ==> a[i].sid == s;
      assert i >= |a| ==> b[i - |a|].sid == s;
    }
    forall i | 0 <= i < |a| ensures a[i].sid in SidsOf(a + b) {
      assert (a + b)[i] == a[i];
    }
    forall i | 0 <= i < |b| ensures b[i].sid in SidsOf(a + b) {
      assert (a + b)[|a| + i] == b[i];
    }
  }

  lemma SidsOfOne(x: Session)
    ensures SidsOf([x]) == {x.sid}
  {
    assert [x][0].sid in SidsOf([x]);
  }

  lemma ListsAppend(slice: seq<Session>, t: Table, sids: set<Sid>, x: Session)
    requires Lists(slice, t, sids) && x.sid in t && t[x.sid] == x && x.sid !in sids
    ensures Lists(slice + [x], t, sids + {x.sid})
  {
    SidsSplit(slice, [x]);
    SidsOfOne(x);
    forall i | 0 <= i < |slice| ensures slice[i].sid != x.sid {
      assert slice[i].sid in SidsOf(slice);
    }
  }

  lemma {:induction false} ListedCount(slice: seq<Session>)
    requires forall i, j :: 0 <= i < j < |slice| ==> slice[i].sid != slice[j].sid
    ensures |SidsOf(slice)| == |slice|
  {
    if slice != [] {
      var n := |slice| - 1;
      ListedCount(slice[..n]);
      SidsSplit(slice[..n], [slice[n]]);
      assert slice == slice[..n] + [slice[n]];
      SidsOfOne(slice[n]);
    }
  }

  /** The step of the sort: put `x` behind everything that is not newer. */
  method InsertByCreateTime(sorted: seq<Session>, x: Session, ghost t: Table, ghost sids: set<Sid>)
    returns (out: seq<Session>)
    requires Sorted(sorted) && Lists(sorted, t, sids) && x.sid in t && t[x.sid] == x && x.sid !in sids
    ensures Sorted(out) && Lists(out, t, sids + {x.sid})
  {
    var k := |sorted|;
    while k > 0 && sorted[k - 1].createTime > x.createTime
      invariant 0 <= k <= |sorted|
      invariant forall i :: k <= i < |sorted| ==> sorted[i].createTime > x.createTime
    {
      k := k - 1;
    }
    out := sorted[..k] + [x] + sorted[k..];
    InsertedLists(sorted, k, x, t, sids);
    InsertedSorted(sorted, k, x);
  }

  lemma InsertedSorted(slice: seq<Session>, k: nat, x: Session)
    requires Sorted(slice) && k <= |slice| && (k > 0 ==> slice[k - 1].createTime <= x.createTime)
    requires forall i :: k <= i < |slice| ==> slice[i].createTime > x.createTime
    ensures Sorted(slice[..k] + [x] + slice[k..])
  {
    var out := slice[..k] + [x] + slice[k..];
    assert forall i :: 0 <= i < k ==> out[i] == slice[i] && slice[i].createTime <= x.createTime;
    assert forall i :: k < i < |out| ==> out[i] == slice[i - 1];
  }

  lemma InsertedSids(slice: seq<Session>, k: nat, x: Session)
    requires k <= |slice|
    ensures SidsOf(slice[..k] + [x] + slice[k..]) == SidsOf(slice) + {x.sid}
  {
    SidsSplit(slice[..k], slice[k..]);
    SidsSplit(slice[..k], [x]);
    SidsSplit(slice[..k] + [x], slice[k..]);
    assert slice == slice[..k] + slice[k..];
    SidsOfOne(x);
  }

  lemma InsertedLists(slice: seq<Session>, k: nat, x: Session, t: Table, sids: set<Sid>)
    requires Lists(slice, t, sids) && k <= |slice| && x.sid in t && t[x.sid] == x && x.sid !in sids
    ensures Lists(slice[..k] + [x] + slice[k..], t, sids + {x.sid})
  {
    var out := slice[..k] + [x] + slice[k..];
    InsertedSids(slice, k, x);
    forall i | 0 <= i < |slice| ensures slice[i].sid != x.sid {
      assert slice[i].sid in SidsOf(slice);
    }
    assert forall i :: 0 <= i < |out| ==> out[i] == if i < k then slice[i] else if i == k then x else slice[i - 1];
  }

  /** `sort.Slice` by create time: sorted, the same sessions, ties in any order. */
  method SortByCreateTime(slice: seq<Session>, ghost t: Table, ghost sids: set<Sid>) returns (sorted: seq<Session>)
    requires Lists(slice, t, sids)
    ensures Sorted(sorted) && Lists(sorted, t, sids)
  {
    sorted := [];
    for n := 0 to |slice|
      invariant Sorted(sorted) && Lists(sorted, t, SidsOf(slice[..n]))
    {
      assert slice[..n + 1] == slice[..n] + [slice[n]];
      assert slice[n].sid !in SidsOf(slice[..n]);
      SidsSplit(slice[..n], [slice[n]]);
      SidsOfOne(slice[n]);
      sorted := InsertByCreateTime(sorted, slice[n], t, SidsOf(slice[..n]));
    }
    assert slice[..|slice|] == slice;
  }

  /** The front of the sorted list, as long as the quota is exceeded. */
  method PickOldest(slice: seq<Session>, quota: nat, ghost t: Table, ghost u: Uid) returns (chosen: seq<Session>)
    requires Lists(slice, t, OfUser(t, u))
    ensures OverQuota(t, u, quota, SidsOf(chosen)) && Lists(chosen, t, SidsOf(chosen))
  {
    ListedCount(slice);
    var n := |slice| - quota;
    if n <= 0 {
      return [];
    }
    var sorted := SortByCreateTime(slice, t, OfUser(t, u));
    ListedCount(sorted);
    FrontIsOldest(sorted, n, quota, t, u);
    chosen := sorted[..n];
  }

  lemma FrontBeforeBack(sorted: seq<Session>, n: nat, t: Table, a: Sid, b: Sid)
    requires Sorted(sorted) && Lists(sorted, t, SidsOf(sorted)) && n <= |sorted|
    requires a in SidsOf(sorted[..n]) && b in SidsOf(sorted[n..])
    ensures a in t && b in t && t[a].createTime <= t[b].createTime
  {
    var i :| 0 <= i < |sorted[..n]| && sorted[..n][i].sid == a;
    var j :| 0 <= j < |sorted[n..]| && sorted[n..][j].sid == b;
    assert sorted[i].sid == a && sorted[n + j].sid == b;
  }

  lemma FrontIsOldest(sorted: seq<Session>, n: nat, quota: nat, t: Table, u: Uid)
    requires Sorted(sorted) && Lists(sorted, t, OfUser(t, u)) && n == |sorted| - quota
    ensures OverQuota(t, u, quota, SidsOf(sorted[..n])) && Lists(sorted[..n], t, SidsOf(sorted[..n]))
  {
    ListedCount(sorted);
    ListedCount(sorted[..n]);
    SidsSplit(sorted[..n], sorted[n..]);
    assert sorted == sorted[..n] + sorted[n..];
    forall a, b | a in SidsOf(sorted[..n]) && b in OfUser(t, u) && b !in SidsOf(sorted[..n])
      ensures t[a].createTime <= t[b].createTime
    {
      FrontBeforeBack(sorted, n, t, a, b);
    }
  }

  // ----- all users at once -----

  type Groups = map<Uid, seq<Session>>

  function Group(groups: Groups, u: Uid): seq<Session>
  {
    if u in groups then groups[u] else []
  }

  /** The sessions of a user among `sids`. */
  function Among(t: Table, sids: set<Sid>, u: Uid): set<Sid>
  {
    set s | s in sids && s in t && t[s].uid == u
  }

  ghost predicate Grouped(groups: Groups, t: Table, sids: set<Sid>)
  {
    forall u :: Lists(Group(groups, u), t, Among(t, sids, u))
  }

  lemma GroupedAppend(groups: Groups, t: Table, sids: set<Sid>, x: Session)
    requires Grouped(groups, t, sids) && x.sid in t && t[x.sid] == x && x.sid !in sids
    ensures Grouped(groups[x.uid := Group(groups, x.uid) + [x]], t, sids + {x.sid})
  {
    var groups' := groups[x.uid := Group(groups, x.uid) + [x]];
    forall u ensures Lists(Group(groups', u), t, Among(t, sids + {x.sid}, u)) {
      assert Lists(Group(groups, u), t, Among(t, sids, u));
      if u == x.uid {
        ListsAppend(Group(groups, u), t, Among(t, sids, u), x);
        assert Among(t, sids + {x.sid}, u) == Among(t, sids, u) + {x.sid};
      } else {
        assert Among(t, sids + {x.sid}, u) == Among(t, sids, u);
      }
    }
  }

  /** The loop that fills `userSessions`. */
  method GroupByUser(all: seq<Session>, ghost t: Table) returns (groups: Groups)
    requires Lists(all, t, t.Keys)
    ensures forall u :: Lists(Group(groups, u), t, OfUser(t, u))
  {
    groups := map[];
    for n := 0 to |all|
      invariant Grouped(groups, t, SidsOf(all[..n]))
    {
      var x := all[n];
      assert all[..n + 1] == all[..n] + [x];
      assert x.sid !in SidsOf(all[..n]);
      SidsSplit(all[..n], [x]);
      SidsOfOne(x);
      GroupedAppend(groups, t, SidsOf(all[..n]), x);
      groups := groups[x.uid := (if x.uid in groups then groups[x.uid] else []) + [x]];
    }
    assert all[..|all|] == all;
    forall u ensures Lists(Group(groups, u), t, OfUser(t, u)) {
      assert Among(t, SidsOf(all), u) == OfUser(t, u);
    }
  }

  /** Of the users visited so far, `sids` are those over the quota. */
  ghost predicate Visited(t: Table, quota: nat, sids: set<Sid>, left: set<Uid>)
  {
    forall u :: VisitedUser(t, quota, sids, left, u)
  }

  ghost predicate VisitedUser(t: Table, quota: nat, sids: set<Sid>, left: set<Uid>, u: Uid)
  {
    if u in left then sids * OfUser(t, u) == {} else OverQuota(t, u, quota, sids * OfUser(t, u))
  }

  lemma ChosenOf(t: Table, sids: set<Sid>, u: Uid, chosen: set<Sid>, v: Uid)
    requires chosen <= OfUser(t, u) && (v == u ==> sids * OfUser(t, u) == {})
    ensures (sids + chosen) * OfUser(t, v) == if v == u then chosen else sids * OfUser(t, v)
  {
    if v == u {
      assert forall s | s in sids && s in OfUser(t, u) :: s in sids * OfUser(t, u);
      assert (sids + chosen) * OfUser(t, v) == chosen;
    } else {
      assert forall s | s in chosen :: s !in OfUser(t, v);
      assert (sids + chosen) * OfUser(t, v) == sids * OfUser(t, v);
    }
  }

  lemma VisitOne(t: Table, quota: nat, sids: set<Sid>, left: set<Uid>, u: Uid, chosen: set<Sid>)
    requires Visited(t, quota, sids, left) && u in left && OverQuota(t, u, quota, chosen)
    ensures Visited(t, quota, sids + chosen, left - {u})
  {
    assert VisitedUser(t, quota, sids, left, u);
    forall v ensures VisitedUser(t, quota, sids + chosen, left - {u}, v) {
      assert VisitedUser(t, quota, sids, left, v);
      ChosenOf(t, sids, u, chosen, v);
    }
  }

  lemma ListsConcat(a: seq<Session>, b: seq<Session>, t: Table)
    requires Lists(a, t, SidsOf(a)) && Lists(b, t, SidsOf(b)) && SidsOf(a) !! SidsOf(b)
    ensures Lists(a + b, t, SidsOf(a) + SidsOf(b))
  {
    SidsSplit(a, b);
    forall i, j | 0 <= i < |a| && 0 <= j < |b| ensures a[i].sid != b[j].sid {
      assert a[i].sid in SidsOf(a) && b[j].sid in SidsOf(b);
    }
  }

  /** The sessions chosen of one more user join the others. */
  lemma ChooseMore(t: Table, quota: nat, chosen: seq<Session>, left: set<Uid>, u: Uid, more: seq<Session>)
    requires Lists(chosen, t, SidsOf(chosen)) && Visited(t, quota, SidsOf(chosen), left) && u in left
    requires Lists(more, t, SidsOf(more)) && OverQuota(t, u, quota, SidsOf(more))
    ensures Lists(chosen + more, t, SidsOf(chosen + more)) && Visited(t, quota, SidsOf(chosen + more), left - {u})
  {
    assert VisitedUser(t, quota, SidsOf(chosen), left, u);
    VisitOne(t, quota, SidsOf(chosen), left, u, SidsOf(more));
    forall s | s in SidsOf(more) ensures s !in SidsOf(chosen) {
      assert s in SidsOf(chosen) ==> s in SidsOf(chosen) * OfUser(t, u);
    }
    ListsConcat(chosen, more, t);
    SidsSplit(chosen, more);
  }

  lemma AllVisited(t: Table, quota: nat, chosen: seq<Session>)
    requires Lists(chosen, t, SidsOf(chosen)) && Visited(t, quota, SidsOf(chosen), {})
    ensures OverQuotaAll(t, quota, SidsOf(chosen))
  {
    forall u ensures OverQuota(t, u, quota, SidsOf(chosen) * OfUser(t, u)) {
      assert VisitedUser(t, quota, SidsOf(chosen), {}, u);
    }
    forall s | s in SidsOf(chosen) ensures s in t {
    }
  }

  /** The sessions over the quota, over all users. */
  method PickOldestOfAll(all: seq<Session>, quota: nat, ghost t: Table) returns (chosen: seq<Session>)
    requires Lists(all, t, t.Keys)
    ensures OverQuotaAll(t, quota, SidsOf(chosen)) && Lists(chosen, t, SidsOf(chosen))
  {
    var groups := GroupByUser(all, t);
    chosen := [];
    var left := groups.Keys;
    NothingChosen(t, quota, groups);
    while left != {}
      invariant left <= groups.Keys
      invariant Lists(chosen, t, SidsOf(chosen)) && Visited(t, quota, SidsOf(chosen), left)
    {
      var u := NextKey(left);
      assert groups[u] == Group(groups, u);
      var more := PickOldest(groups[u], quota, t, u);
      ChooseMore(t, quota, chosen, left, u, more);
      chosen := chosen + more;
      left := left - {u};
    }
    AllVisited(t, quota, chosen);
  }

  lemma NothingChosen(t: Table, quota: nat, groups: Groups)
    requires forall u :: Lists(Group(groups, u), t, OfUser(t, u))
    ensures Visited(t, quota, SidsOf([]), groups.Keys)
  {
    assert SidsOf([]) == {};
    forall u ensures VisitedUser(t, quota, {}, groups.Keys, u) {
      assert {} * OfUser(t, u) == {};
      if u !in groups {
        assert Lists(Group(groups, u), t, OfUser(t, u));
        assert OfUser(t, u) == {};
      }
    }
  }
}
