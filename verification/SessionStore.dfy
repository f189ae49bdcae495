/** The leader's session store (`cluster/sessionstore.go`). */
module SessionStore {
  import opened Iteration
  import opened Sessions
  import opened Selection
  import opened ClusterSessions

  /** The sessions of the hubs already visited that satisfy the filter of the loop. */
  function VisitedSids(kv: Store, left: set<HubId>, uid: Uid, everyone: bool): set<Sid>
  {
    set h, s | h in kv && h !in left && s in kv[h] && (everyone || kv[h][s].uid == uid) :: s
  }

  function VisitedIn(t: Table, left: set<Sid>, uid: Uid, everyone: bool): set<Sid>
  {
    set s | s in t && s !in left && (everyone || t[s].uid == uid)
  }

  class SessionStore {
    var kv: Store

    constructor ()
      ensures kv == map[]
    {
      kv := map[];
    }

    method Add(hubId: HubId, sess: Session)
      modifies this
      ensures kv == AddTo(old(kv), hubId, sess)
    {
      var v: Table := map[];
      if hubId in kv {
        v := kv[hubId];
      }
      kv := kv[hubId := v[sess.sid := sess.(hubId := hubId)]];
    }

    method AddMany(hubId: HubId, slice: seq<Session>)
      modifies this
      ensures kv == AddManyTo(old(kv), hubId, slice)
    {
      var v: Table := map[];
      if hubId in kv {
        v := kv[hubId];
      }
      ghost var tagged := Tag(slice, hubId);
      for i := 0 to |slice|
        invariant v == AddAll(HubTable(kv, hubId), tagged[..i])
        invariant kv == old(kv)
      {
        assert tagged[..i + 1][..i] == tagged[..i];
        v := v[slice[i].sid := slice[i].(hubId := hubId)];
      }
      assert tagged[..|slice|] == tagged;
      kv := kv[hubId := v];
    }

    method Del(hubId: HubId, sid: Sid)
      modifies this
      ensures kv == DelFrom(old(kv), hubId, sid)
    {
      if hubId in kv {
        kv := kv[hubId := kv[hubId] - {sid}];
      }
    }

    /** The inner loop: one hub's sessions, of one user or of everyone. */
    method ListHub(hubId: HubId, uid: Uid, everyone: bool, slice0: seq<Session>, ghost listed: set<Sid>)
      returns (slice: seq<Session>)
      requires Valid(kv) && hubId in kv && Lists(slice0, Flat(kv), listed) && listed !! kv[hubId].Keys
      ensures Lists(slice, Flat(kv), listed + VisitedIn(kv[hubId], {}, uid, everyone))
    {
      slice := slice0;
      var v := kv[hubId];
      var left := v.Keys;
      assert listed + VisitedIn(v, left, uid, everyone) == listed;
      while left != {}
        invariant left <= v.Keys
        invariant Lists(slice, Flat(kv), listed + VisitedIn(v, left, uid, everyone))
      {
        var sid := NextKey(left);
        var sess := v[sid];
        ghost var before := listed + VisitedIn(v, left, uid, everyone);
        ghost var after := listed + VisitedIn(v, left - {sid}, uid, everyone);
        if everyone || sess.uid == uid {
          FlatAt(kv, hubId, sid);
          ListsAppend(slice, Flat(kv), before, sess);
          assert after == before + {sid};
          slice := slice + [sess];
        } else {
          assert after == before;
        }
        left := left - {sid};
      }
      assert VisitedIn(v, left, uid, everyone) == VisitedIn(v, {}, uid, everyone);
    }

    /** The nested loops over hubs and sessions. */
    method List(uid: Uid, everyone: bool) returns (slice: seq<Session>)
      requires Valid(kv)
      ensures Lists(slice, Flat(kv), VisitedSids(kv, {}, uid, everyone))
    {
      slice := [];
      var left := kv.Keys;
      assert VisitedSids(kv, left, uid, everyone) == {};
      while left != {}
        invariant left <= kv.Keys
        invariant Lists(slice, Flat(kv), VisitedSids(kv, left, uid, everyone))
      {
        var h := NextKey(left);
        ghost var before := VisitedSids(kv, left, uid, everyone);
        VisitHub(kv, left, h, uid, everyone);
        slice := ListHub(h, uid, everyone, slice, before);
        left := left - {h};
      }
      assert VisitedSids(kv, left, uid, everyone) == VisitedSids(kv, {}, uid, everyone);
    }

    method GetUserSessionsToKickoff(uid: Uid, quota: nat) returns (kickoff: Table)
      requires Valid(kv)
      ensures OverQuota(Flat(kv), uid, quota, kickoff.Keys)
      ensures forall s | s in kickoff :: s in Flat(kv) && kickoff[s] == Flat(kv)[s]
    {
      var slice := List(uid, false);
      ListedUser(kv, uid);
      var chosen := PickOldest(slice, quota, Flat(kv), uid);
      kickoff := ToMap(chosen, Flat(kv));
    }

    /** Delete what is dead or expired, then select over all users. */
    method Gc(live: set<HubId>, quota: nat, now: int) returns (kickoff: Table)
      requires Valid(kv)
      modifies this
      ensures kv == Collected(old(kv), live, now) && Valid(kv)
      ensures forall h, s :: s in HubTable(kv, h) <==>
                && s in HubTable(old(kv), h) && h in live
                && (old(kv)[h][s].kickoffTime <= 0 || now <= old(kv)[h][s].kickoffTime + 60)
      ensures forall h, s | s in HubTable(kv, h) :: kv[h][s] == old(kv)[h][s]
      ensures OverQuotaAll(Flat(kv), quota, kickoff.Keys)
      ensures forall s | s in kickoff :: s in Flat(kv) && kickoff[s] == Flat(kv)[s]
    {
      CollectKeepsValid(kv, live, now);
      Collect(live, now);
      var all := List(0, true);
      ListedEveryone(kv);
      var chosen := PickOldestOfAll(all, quota, Flat(kv));
      kickoff := ToMap(chosen, Flat(kv));
    }

    /** The sessions named in a kickoff message get their kickoff time. */
    method MarkHub(hubId: HubId, sids: seq<Sid>, now: int)
      requires hubId in kv && forall i :: 0 <= i < |sids| ==> sids[i] in kv[hubId]
      modifies this
      ensures kv == old(kv)[hubId := Mark(old(kv)[hubId], ToSet(sids), now)]
    {
      ghost var t := kv[hubId];
      assert ToSet(sids[..0]) == {} && Mark(t, {}, now) == t;
      for i := 0 to |sids|
        invariant kv == old(kv)[hubId := Mark(t, ToSet(sids[..i]), now)]
      {
        var sid := sids[i];
        assert sid in t;
        assert Mark(t, ToSet(sids[..i + 1]), now) == Mark(t, ToSet(sids[..i]), now)[sid := t[sid].(kickoffTime := now)] by {
          assert sids[..i + 1] == sids[..i] + [sid];
          assert ToSet(sids[..i + 1]) == ToSet(sids[..i]) + {sid};
        }
        kv := kv[hubId := kv[hubId][sid := kv[hubId][sid].(kickoffTime := now)]];
      }
      assert sids[..|sids|] == sids;
    }

    /** The first loop of `gc`. */
    method Collect(live: set<HubId>, now: int)
      modifies this
      ensures kv == Collected(old(kv), live, now)
      ensures forall h, s :: s in HubTable(kv, h) <==>
                && s in HubTable(old(kv), h) && h in live
                && (old(kv)[h][s].kickoffTime <= 0 || now <= old(kv)[h][s].kickoffTime + 60)
    {
      var left := kv.Keys;
      while left != {}
        invariant left <= old(kv).Keys
        invariant kv == PartlyCollected(old(kv), left, live, now)
      {
        var h := NextKey(left);
        CollectOne(old(kv), left, live, now, h);
        if h !in live {
          kv := kv - {h};
        } else {
          var v := DeleteExpired(kv[h], now);
          kv := kv[h := v];
        }
        left := left - {h};
      }
      AllCollected(old(kv), live, now);
    }
  }

  /** The hubs in `left` are still to be looked at. */
  function PartlyCollected(kv: Store, left: set<HubId>, live: set<HubId>, now: int): Store
  {
    map h | h in kv && (h in left || h in live) :: if h in left then kv[h] else Unexpired(kv[h], now)
  }

  lemma CollectOne(kv: Store, left: set<HubId>, live: set<HubId>, now: int, h: HubId)
    requires h in left && left <= kv.Keys
    ensures var before := PartlyCollected(kv, left, live, now);
            && h in before && before[h] == kv[h]
            && PartlyCollected(kv, left - {h}, live, now) ==
               if h in live then before[h := Unexpired(kv[h], now)] else before - {h}
  {
  }

  lemma AllCollected(kv: Store, live: set<HubId>, now: int)
    ensures PartlyCollected(kv, {}, live, now) == Collected(kv, live, now)
  {
  }

  /** The inner loop of the first loop of `gc`. */
  method DeleteExpired(v: Table, now: int) returns (kept: Table)
    ensures kept == Unexpired(v, now)
  {
    kept := v;
    var left := v.Keys;
    assert v == map s | s in v && (s in left || !Expired(v[s], now)) :: v[s];
    while left != {}
      invariant left <= v.Keys
      invariant kept == map s | s in v && (s in left || !Expired(v[s], now)) :: v[s]
    {
      var sid := NextKey(left);
      if Expired(v[sid], now) {
        kept := kept - {sid};
      }
      left := left - {sid};
    }
  }

  /** The result map, by session id. */
  method ToMap(chosen: seq<Session>, ghost t: Table) returns (kickoff: Table)
    requires Lists(chosen, t, SidsOf(chosen))
    ensures kickoff.Keys == SidsOf(chosen)
    ensures forall s | s in kickoff :: s in t && kickoff[s] == t[s]
  {
    kickoff := map[];
    for i := 0 to |chosen|
      invariant kickoff.Keys == SidsOf(chosen[..i])
      invariant forall s | s in kickoff :: s in t && kickoff[s] == t[s]
    {
      var sess := chosen[i];
      assert chosen[..i + 1] == chosen[..i] + [sess];
      SidsSplit(chosen[..i], [sess]);
      SidsOfOne(sess);
      kickoff := kickoff[sess.sid := sess];
    }
    assert chosen[..|chosen|] == chosen;
  }

  lemma VisitHub(kv: Store, left: set<HubId>, h: HubId, uid: Uid, everyone: bool)
    requires Valid(kv) && h in left && h in kv
    ensures VisitedSids(kv, left, uid, everyone) !! kv[h].Keys
    ensures VisitedSids(kv, left - {h}, uid, everyone) ==
            VisitedSids(kv, left, uid, everyone) + VisitedIn(kv[h], {}, uid, everyone)
  {
  }

  lemma ListedUser(kv: Store, uid: Uid)
    requires Valid(kv)
    ensures VisitedSids(kv, {}, uid, false) == OfUser(Flat(kv), uid)
  {
    forall s ensures s in VisitedSids(kv, {}, uid, false) <==> s in OfUser(Flat(kv), uid) {
      if h :| h in kv && s in kv[h] {
        FlatAt(kv, h, s);
      }
    }
  }

  lemma ListedEveryone(kv: Store)
    ensures VisitedSids(kv, {}, 0, true) == Flat(kv).Keys
  {
  }
}
