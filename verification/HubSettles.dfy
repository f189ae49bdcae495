/** From every state of leader and hubs, what is on the way from and to a hub can arrive. */
module HubSettles {
  import opened Sessions
  import opened HubProtocol
  import Agreement = HubAgreement

  // ----- a selection can always be made -----

  lemma {:induction false} Oldest(t: Table, sids: set<Sid>) returns (a: Sid)
    requires sids != {} && sids <= t.Keys
    ensures a in sids && forall b | b in sids :: t[a].createTime <= t[b].createTime
  {
    a :| a in sids;
    if sids != {a} {
      var rest := sids - {a};
      assert forall b | b in sids :: b == a || b in rest;
      assert rest != {} by { assert rest == {} ==> sids == {a}; }
      var b := Oldest(t, rest);
      if t[b].createTime < t[a].createTime {
        a := b;
      }
    }
  }

  lemma {:induction false} OldestFirst(t: Table, sids: set<Sid>, k: nat) returns (chosen: set<Sid>)
    requires sids <= t.Keys && k <= |sids|
    ensures chosen <= sids && |chosen| == k
    ensures forall a, b | a in chosen && b in sids && b !in chosen :: t[a].createTime <= t[b].createTime
  {
    chosen := {};
    if k > 0 {
      chosen := OldestFirst(t, sids, k - 1);
      assert sids - chosen != {} by { assert sids - chosen == {} ==> sids == chosen; }
      var a := Oldest(t, sids - chosen);
      chosen := chosen + {a};
    }
  }

  /** The leader can act on every message. */
  lemma CanSelect(t: Table, msg: FollowerMsg, now: int, quota: nat) returns (chosen: set<Sid>)
    ensures Selects(t, Receive(msg, now), quota, chosen)
  {
    chosen := {};
    if msg.SessionOnline? {
      var mine := OfUser(t, msg.sess.uid);
      chosen := OldestFirst(t, mine, if |mine| > quota then |mine| - quota else 0);
    }
  }

  /** A choice of the user's sessions over the quota. */
  ghost function Pick(t: Table, u: Uid, quota: nat): (chosen: set<Sid>)
    ensures OverQuota(t, u, quota, chosen)
  {
    CanPick(t, u, quota);
    var chosen :| OverQuota(t, u, quota, chosen);
    chosen
  }

  lemma CanPick(t: Table, u: Uid, quota: nat)
    ensures exists chosen :: OverQuota(t, u, quota, chosen)
  {
    var mine := OfUser(t, u);
    var chosen := OldestFirst(t, mine, if |mine| > quota then |mine| - quota else 0);
    assert OverQuota(t, u, quota, chosen);
  }

  lemma CanSelectAll(t: Table, quota: nat) returns (chosen: set<Sid>)
    ensures OverQuotaAll(t, quota, chosen)
  {
    chosen := set s | s in t && s in Pick(t, t[s].uid, quota);
    forall u ensures OverQuota(t, u, quota, chosen * OfUser(t, u)) {
      assert Pick(t, u, quota) <= OfUser(t, u);
      assert chosen * OfUser(t, u) == Pick(t, u, quota);
    }
  }

  // ----- runs go on -----

  function Last(run: seq<State>): State
    requires run != []
  {
    run[|run| - 1]
  }

  lemma Go(quota: nat, run: seq<State>, labels: seq<Label>, l: Label, next: State)
    returns (run': seq<State>, labels': seq<Label>)
    requires IsRun(quota, run, labels) && Step(quota, Last(run), l, next)
    ensures IsRun(quota, run', labels') && labels' == labels + [l] && Last(run') == next
  {
    run', labels' := run + [next], labels + [l];
    forall n: nat | n < |labels'| ensures StepAt(quota, run', labels', n) {
      if n < |labels| {
        SameStep(quota, run, labels, run', labels', n);
      }
    }
  }

  lemma SameStep(quota: nat, run: seq<State>, labels: seq<Label>, run': seq<State>, labels': seq<Label>, n: nat)
    requires IsRun(quota, run, labels) && n < |labels| && labels <= labels' && run <= run' && |labels'| < |run'|
    ensures StepAt(quota, run', labels', n)
  {
    assert StepAt(quota, run, labels, n);
    assert run'[n] == run[n] && run'[n + 1] == run[n + 1] && labels'[n] == labels[n];
  }

  lemma GoHub(quota: nat, run: seq<State>, labels: seq<Label>, l: Label, hub': HubState)
    returns (run': seq<State>, labels': seq<Label>)
    requires IsRun(quota, run, labels) && !l.Collect? && l.h in Last(run).hubs && HubStep(Last(run).hubs[l.h], l, hub')
    ensures IsRun(quota, run', labels') && labels <= labels' && Last(run') == Last(run).(hubs := Last(run).hubs[l.h := hub'])
  {
    run', labels' := Go(quota, run, labels, l, Last(run).(hubs := Last(run).hubs[l.h := hub']));
  }

  /** What was put into the hub's table is reported. */
  lemma {:induction false} ReportAll(quota: nat, run: seq<State>, labels: seq<Label>, h: HubId)
    returns (run': seq<State>, labels': seq<Label>)
    requires IsRun(quota, run, labels) && h in Last(run).hubs
    ensures IsRun(quota, run', labels') && labels <= labels' && h in Last(run').hubs
    ensures var hub' := Last(run').hubs[h]; hub'.adding == map[] && hub'.handlers == Last(run).hubs[h].handlers
    decreases Last(run).hubs[h].adding.Keys
  {
    run', labels' := run, labels;
    var hub := Last(run).hubs[h];
    if hub.adding != map[] {
      var x :| x in hub.adding;
      var hub' := hub.(adding := hub.adding - {x}, up := hub.up + [SessionOnline(hub.adding[x])]);
      run', labels' := GoHub(quota, run, labels, SendOnline(h, x), hub');
      assert hub'.adding.Keys < hub.adding.Keys;
      run', labels' := ReportAll(quota, run', labels', h);
    }
  }

  /** What was taken out of the hub's table is reported. */
  lemma {:induction false} RetractAll(quota: nat, run: seq<State>, labels: seq<Label>, h: HubId)
    returns (run': seq<State>, labels': seq<Label>)
    requires IsRun(quota, run, labels) && h in Last(run).hubs && Last(run).hubs[h].adding == map[]
    ensures IsRun(quota, run', labels') && labels <= labels' && h in Last(run').hubs
    ensures var hub' := Last(run').hubs[h];
            hub'.adding == map[] && hub'.removing == {} && hub'.handlers == Last(run).hubs[h].handlers
    decreases Last(run).hubs[h].removing
  {
    run', labels' := run, labels;
    var hub := Last(run).hubs[h];
    if hub.removing != {} {
      var x :| x in hub.removing;
      var hub' := hub.(removing := hub.removing - {x}, up := hub.up + [SessionOffline(x)]);
      run', labels' := GoHub(quota, run, labels, SendOffline(h, x), hub');
      run', labels' := RetractAll(quota, run', labels', h);
    }
  }

  /** The leader takes the next message of the hub. */
  lemma HearOne(quota: nat, run: seq<State>, labels: seq<Label>, h: HubId, now: int)
    returns (run': seq<State>, labels': seq<Label>)
    requires IsRun(quota, run, labels) && h in Last(run).hubs && Last(run).hubs[h].up != []
    ensures IsRun(quota, run', labels') && labels <= labels' && h in Last(run').hubs
    ensures var hub, hub' := Last(run).hubs[h], Last(run').hubs[h];
            && hub'.up == hub.up[1..] && hub'.adding == hub.adding && hub'.removing == hub.removing
            && hub'.handlers == hub.handlers
  {
    var s := Last(run);
    var hub := s.hubs[h];
    var act := Receive(hub.up[0], now);
    var kv1 := C.Updated(s.kv, s.hubs.Keys, h, act);
    var chosen := CanSelect(C.Flat(kv1), hub.up[0], now, quota);
    var sent := C.Route(kv1, chosen, s.hubs.Keys);
    var next := State(C.MarkIn(kv1, chosen, s.hubs.Keys, now), Handed(s.hubs[h := hub.(up := hub.up[1..])], sent), s.born);
    assert Leads(quota, s, h, now, chosen, sent, next);
    run', labels' := Go(quota, run, labels, Lead(h, now, chosen, sent), next);
  }

  lemma {:induction false} HearAll(quota: nat, run: seq<State>, labels: seq<Label>, h: HubId, now: int)
    returns (run': seq<State>, labels': seq<Label>)
    requires IsRun(quota, run, labels) && h in Last(run).hubs
    requires Last(run).hubs[h].adding == map[] && Last(run).hubs[h].removing == {}
    ensures IsRun(quota, run', labels') && labels <= labels' && h in Last(run').hubs
    ensures var hub' := Last(run').hubs[h];
            && hub'.up == [] && hub'.adding == map[] && hub'.removing == {}
            && hub'.handlers == Last(run).hubs[h].handlers
    decreases |Last(run).hubs[h].up|
  {
    run', labels' := run, labels;
    if Last(run).hubs[h].up != [] {
      run', labels' := HearOne(quota, run, labels, h, now);
      run', labels' := HearAll(quota, run', labels', h, now);
    }
  }

  /** The hub takes the kickoff messages. */
  lemma {:induction false} TakeAll(quota: nat, run: seq<State>, labels: seq<Label>, h: HubId)
    returns (run': seq<State>, labels': seq<Label>)
    requires IsRun(quota, run, labels) && h in Last(run).hubs
    requires var hub := Last(run).hubs[h]; hub.up == [] && hub.adding == map[] && hub.removing == {}
    ensures IsRun(quota, run', labels') && labels <= labels' && h in Last(run').hubs
    ensures var hub' := Last(run').hubs[h];
            hub'.up == [] && hub'.down == [] && hub'.adding == map[] && hub'.removing == {}
    decreases |Last(run).hubs[h].down|
  {
    run', labels' := run, labels;
    var hub := Last(run).hubs[h];
    if hub.down != [] {
      run', labels' := GoHub(quota, run, labels, TakeKickoff(h), Taken(hub));
      run', labels' := TakeAll(quota, run', labels', h);
    }
  }

  /**
   From every state of every run, all that is on the way from and to a hub can arrive: the run can go on so that then
   the hub has exactly the sessions the leader knows of it, those kicked off or stale aside.
   */
  lemma CanSettle(quota: nat, run: seq<State>, labels: seq<Label>, h: HubId, now: int)
    returns (run': seq<State>, labels': seq<Label>)
    requires IsRun(quota, run, labels) && h in Last(run).hubs
    ensures IsRun(quota, run', labels') && labels <= labels' && h in Last(run').hubs
    ensures var hub := Last(run').hubs[h];
            && hub.up == [] && hub.down == [] && hub.adding == map[] && hub.removing == {}
            && hub.handlers.Keys == C.HubTable(Last(run').kv, h).Keys - hub.kicked - hub.stale
  {
    run', labels' := ReportAll(quota, run, labels, h);
    run', labels' := RetractAll(quota, run', labels', h);
    run', labels' := HearAll(quota, run', labels', h, now);
    run', labels' := TakeAll(quota, run', labels', h);
    Agreement.QuietHubMatches(quota, run', labels', |labels'|, h);
  }

  /** From every state of every run the leader can collect: then it knows nothing of hubs that are not connected. */
  lemma CanCollect(quota: nat, run: seq<State>, labels: seq<Label>, now: int)
    returns (run': seq<State>, labels': seq<Label>)
    requires IsRun(quota, run, labels)
    ensures IsRun(quota, run', labels') && labels <= labels' && Last(run').hubs.Keys == Last(run).hubs.Keys
    ensures forall h | h !in Last(run).hubs :: C.HubTable(Last(run').kv, h) == map[]
  {
    var s := Last(run);
    var kv1 := C.Updated(s.kv, s.hubs.Keys, "", Clean(now));
    var chosen := CanSelectAll(C.Flat(kv1), quota);
    var sent := C.Route(kv1, chosen, s.hubs.Keys);
    var next := State(C.MarkIn(kv1, chosen, s.hubs.Keys, now), Handed(s.hubs, sent), s.born);
    assert Collects(quota, s, now, chosen, sent, next);
    run', labels' := Go(quota, run, labels, Collect(now, chosen, sent), next);
  }
}
