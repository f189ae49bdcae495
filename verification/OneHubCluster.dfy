/**
 The standalone server is equivalent to a cluster of one hub (`cluster/standalone.go`): with the hub
 always live and connected, each can follow every step of the other, kicking off the same sessions.
 */
module OneHubCluster {
  import opened Sessions
  import C = ClusterSessions
  import S = Standalone

  /** The table without hub ids. */
  function Strip(t: Table): Table
  {
    map s | s in t :: t[s].(hubId := "")
  }

  /** The two tables hold the same sessions, hub ids aside. */
  ghost predicate Same(t: Table, kv: C.Store, h: HubId)
  {
    C.Valid(kv) && kv.Keys <= {h} && t == Strip(C.HubTable(kv, h))
  }

  /** The kickoff messages of the cluster: one for the hub, or none. */
  function Messages(h: HubId, kicked: set<Sid>): map<HubId, set<Sid>>
  {
    if kicked == {} then map[] else map[h := kicked]
  }

  /** Sessions reach the server without a hub id. */
  ghost predicate Untagged(msg: FollowerMsg)
  {
    match msg
    case SessionOnline(sess) => sess.hubId == ""
    case SessionOffline(_) => true
    case SyncSessions(list) => forall i :: 0 <= i < |list| ==> list[i].hubId == ""
  }

  ghost predicate ActsUntagged(act: Action)
  {
    act.Receive? ==> Untagged(act.msg)
  }

  lemma FlatIsHub(kv: C.Store, h: HubId)
    requires C.Valid(kv) && kv.Keys <= {h}
    ensures C.Flat(kv) == C.HubTable(kv, h)
  {
    var t := C.HubTable(kv, h);
    forall s ensures s in C.Flat(kv) <==> s in t {
      assert s in C.Flat(kv) ==> C.HubOf(kv, s) == h;
      if s in t {
        C.FlatAt(kv, h, s);
      }
    }
  }

  lemma StripUser(t: Table, u: Uid)
    ensures OfUser(Strip(t), u) == OfUser(t, u)
  {
  }

  lemma StripOverQuota(t: Table, u: Uid, quota: nat, chosen: set<Sid>)
    ensures OverQuota(Strip(t), u, quota, chosen) <==> OverQuota(t, u, quota, chosen)
  {
    StripUser(t, u);
  }

  lemma StripOverQuotaAll(t: Table, quota: nat, chosen: set<Sid>)
    ensures OverQuotaAll(Strip(t), quota, chosen) <==> OverQuotaAll(t, quota, chosen)
  {
    forall u
      ensures OverQuota(Strip(t), u, quota, chosen * OfUser(Strip(t), u)) <==> OverQuota(t, u, quota, chosen * OfUser(t, u))
    {
      StripUser(t, u);
      StripOverQuota(t, u, quota, chosen * OfUser(t, u));
    }
    assert Strip(t).Keys == t.Keys;
  }

  lemma {:induction false} StripAddAll(t: Table, list: seq<Session>, h: HubId)
    requires forall i :: 0 <= i < |list| ==> list[i].hubId == ""
    ensures Strip(AddAll(t, C.Tag(list, h))) == AddAll(Strip(t), list)
  {
    if list != [] {
      var n := |list| - 1;
      StripAddAll(t, list[..n], h);
      assert C.Tag(list, h)[..n] == C.Tag(list[..n], h);
    }
  }

  /** Marking a selection and routing it, in a cluster of one connected hub. */
  lemma MarkSame(t: Table, kv: C.Store, h: HubId, kicked: set<Sid>, now: int)
    requires Same(t, kv, h) && kicked <= t.Keys
    ensures Same(Mark(t, kicked, now), C.MarkIn(kv, kicked, {h}, now), h)
    ensures C.Route(kv, kicked, {h}) == Messages(h, kicked)
  {
    C.MarkKeepsValid(kv, kicked, {h}, now);
    var kv' := C.MarkIn(kv, kicked, {h}, now);
    assert kv'.Keys == kv.Keys;
    if h in kv {
      assert kicked * kv[h].Keys == kicked;
      assert kv'[h] == Mark(kv[h], kicked, now);
    } else {
      assert t == map[] && kicked == {};
    }
  }

  lemma AddSame(t: Table, kv: C.Store, h: HubId, sess: Session)
    requires Same(t, kv, h) && sess.hubId == ""
    ensures Same(t[sess.sid := sess], C.AddTo(kv, h, sess), h)
  {
    C.AddKeepsValid(kv, h, sess);
  }

  lemma CollectSame(t: Table, kv: C.Store, h: HubId, now: int)
    requires Same(t, kv, h)
    ensures Same(Unexpired(t, now), C.Collected(kv, {h}, now), h)
  {
    C.CollectKeepsValid(kv, {h}, now);
    var kv' := C.Collected(kv, {h}, now);
    if h in kv {
      assert kv'[h] == Unexpired(kv[h], now);
      assert Strip(Unexpired(kv[h], now)) == Unexpired(Strip(kv[h]), now);
    } else {
      assert kv' == map[] && Unexpired(t, now) == map[];
    }
  }

  /** Before the selection the tables are still the same. */
  lemma UpdatedSame(t: Table, kv: C.Store, h: HubId, act: Action)
    requires Same(t, kv, h) && ActsUntagged(act)
    ensures Same(S.Updated(t, act), C.Updated(kv, {h}, h, act), h)
  {
    match act
    case Receive(SessionOnline(sess), _) =>
      AddSame(t, kv, h, sess);
    case Receive(SessionOffline(sid), _) =>
      C.DelKeepsValid(kv, h, sid);
    case Receive(SyncSessions(list), _) =>
      C.AddManyKeepsValid(kv, h, list);
      StripAddAll(C.HubTable(kv, h), list, h);
    case Clean(now) =>
      CollectSame(t, kv, h, now);
  }

  /** Two tables that are the same allow the same selections. */
  lemma SameSelections(t: Table, kv: C.Store, h: HubId, act: Action, quota: nat, chosen: set<Sid>)
    requires Same(t, kv, h)
    ensures Selects(t, act, quota, chosen) <==> Selects(C.Flat(kv), act, quota, chosen)
    ensures Selects(t, act, quota, chosen) ==> chosen <= t.Keys
  {
    FlatIsHub(kv, h);
    var hub := C.HubTable(kv, h);
    match act
    case Receive(SessionOnline(sess), _) => StripOverQuota(hub, sess.uid, quota, chosen);
    case Receive(_, _) =>
    case Clean(_) => StripOverQuotaAll(hub, quota, chosen);
  }

  // ----- each follows the other -----

  /** The successors when an action kicks off `kicked`. */
  function NextTable(t: Table, act: Action, kicked: set<Sid>): Table
  {
    Mark(S.Updated(t, act), kicked, act.now)
  }

  function NextStore(kv: C.Store, h: HubId, act: Action, kicked: set<Sid>): C.Store
  {
    C.MarkIn(C.Updated(kv, {h}, h, act), kicked, {h}, act.now)
  }

  /**
   From tables that are the same, either server can take an action and kick off `kicked` exactly when
   the other can; the tables are then the same again, and the cluster's messages name just those sessions.
   */
  lemma StepsMatch(quota: nat, t: Table, kv: C.Store, h: HubId, act: Action, kicked: set<Sid>)
    requires Same(t, kv, h) && ActsUntagged(act)
    ensures S.Step(quota, t, act, NextTable(t, act, kicked), kicked) <==>
            C.Step(quota, kv, {h}, h, act, kicked, NextStore(kv, h, act, kicked), Messages(h, kicked))
    ensures S.Step(quota, t, act, NextTable(t, act, kicked), kicked) ==>
              Same(NextTable(t, act, kicked), NextStore(kv, h, act, kicked), h)
  {
    var t1, kv1 := S.Updated(t, act), C.Updated(kv, {h}, h, act);
    UpdatedSame(t, kv, h, act);
    SameSelections(t1, kv1, h, act, quota, kicked);
    if Selects(t1, act, quota, kicked) {
      MarkSame(t1, kv1, h, kicked, act.now);
    }
  }

  /** The messages of a cluster step name just the sessions kicked off. */
  lemma MessagesOfStep(quota: nat, t: Table, kv: C.Store, h: HubId, act: Action, kicked: set<Sid>, kv': C.Store,
                       sent: map<HubId, set<Sid>>)
    requires Same(t, kv, h) && ActsUntagged(act) && C.Step(quota, kv, {h}, h, act, kicked, kv', sent)
    ensures sent == Messages(h, kicked) && kv' == NextStore(kv, h, act, kicked)
  {
    var t1, kv1 := S.Updated(t, act), C.Updated(kv, {h}, h, act);
    UpdatedSame(t, kv, h, act);
    SameSelections(t1, kv1, h, act, quota, kicked);
    MarkSame(t1, kv1, h, kicked, act.now);
  }

  // ----- whole runs -----

  ghost predicate AllUntagged(acts: seq<Action>)
  {
    forall n :: 0 <= n < |acts| ==> ActsUntagged(acts[n])
  }

  function StoreAt(h: HubId, acts: seq<Action>, kicked: seq<set<Sid>>, n: nat): C.Store
    requires n <= |acts| == |kicked|
  {
    if n == 0 then map[] else NextStore(StoreAt(h, acts, kicked, n - 1), h, acts[n - 1], kicked[n - 1])
  }

  function TableAt(acts: seq<Action>, kicked: seq<set<Sid>>, n: nat): Table
    requires n <= |acts| == |kicked|
  {
    if n == 0 then map[] else NextTable(TableAt(acts, kicked, n - 1), acts[n - 1], kicked[n - 1])
  }

  lemma {:induction false} SameAt(quota: nat, h: HubId, run: seq<Table>, acts: seq<Action>, kicked: seq<set<Sid>>, n: nat)
    requires S.IsRun(quota, run, acts, kicked) && AllUntagged(acts) && n <= |acts|
    ensures Same(run[n], StoreAt(h, acts, kicked, n), h)
  {
    if n > 0 {
      SameAt(quota, h, run, acts, kicked, n - 1);
      assert S.Step(quota, run[n - 1], acts[n - 1], run[n], kicked[n - 1]);
      StepsMatch(quota, run[n - 1], StoreAt(h, acts, kicked, n - 1), h, acts[n - 1], kicked[n - 1]);
    }
  }

  /**
   Every run of the standalone server is a run of the one-hub cluster with the same actions: at every
   point the tables are the same, and every step kicks off and marks the same sessions.
   */
  lemma ClusterFollowsRun(quota: nat, h: HubId, run: seq<Table>, acts: seq<Action>, kicked: seq<set<Sid>>, n: nat)
    requires S.IsRun(quota, run, acts, kicked) && AllUntagged(acts) && n <= |acts|
    ensures Same(run[n], StoreAt(h, acts, kicked, n), h)
    ensures n < |acts| ==>
              C.Step(quota, StoreAt(h, acts, kicked, n), {h}, h, acts[n], kicked[n],
                     StoreAt(h, acts, kicked, n + 1), Messages(h, kicked[n]))
  {
    SameAt(quota, h, run, acts, kicked, n);
    if n < |acts| {
      assert S.Step(quota, run[n], acts[n], run[n + 1], kicked[n]);
      StepsMatch(quota, run[n], StoreAt(h, acts, kicked, n), h, acts[n], kicked[n]);
    }
  }

  lemma {:induction false} SameBackAt(quota: nat, h: HubId, kvs: seq<C.Store>, acts: seq<Action>, kicked: seq<set<Sid>>,
                                      sent: seq<map<HubId, set<Sid>>>, n: nat)
    requires C.IsOneHubRun(quota, h, kvs, acts, kicked, sent) && AllUntagged(acts) && n <= |acts|
    ensures Same(TableAt(acts, kicked, n), kvs[n], h)
  {
    if n > 0 {
      SameBackAt(quota, h, kvs, acts, kicked, sent, n - 1);
      var t := TableAt(acts, kicked, n - 1);
      MessagesOfStep(quota, t, kvs[n - 1], h, acts[n - 1], kicked[n - 1], kvs[n], sent[n - 1]);
      StepsMatch(quota, t, kvs[n - 1], h, acts[n - 1], kicked[n - 1]);
    }
  }

  /** Every run of the one-hub cluster is a run of the standalone server, in the same sense. */
  lemma StandaloneFollowsRun(quota: nat, h: HubId, kvs: seq<C.Store>, acts: seq<Action>, kicked: seq<set<Sid>>,
                             sent: seq<map<HubId, set<Sid>>>, n: nat)
    requires C.IsOneHubRun(quota, h, kvs, acts, kicked, sent) && AllUntagged(acts) && n <= |acts|
    ensures Same(TableAt(acts, kicked, n), kvs[n], h)
    ensures n < |acts| ==>
              && sent[n] == Messages(h, kicked[n])
              && S.Step(quota, TableAt(acts, kicked, n), acts[n], TableAt(acts, kicked, n + 1), kicked[n])
  {
    SameBackAt(quota, h, kvs, acts, kicked, sent, n);
    if n < |acts| {
      var t := TableAt(acts, kicked, n);
      MessagesOfStep(quota, t, kvs[n], h, acts[n], kicked[n], kvs[n + 1], sent[n]);
      StepsMatch(quota, t, kvs[n], h, acts[n], kicked[n]);
    }
  }
}
