/** How long a session that was kicked off stays known, over every run of the standalone server and of the leader. */
module Expiry {
  import opened Sessions
  import S = Standalone
  import C = ClusterSessions
  import P = HubProtocol

  /** A message about the session. */
  predicate Mentions(msg: FollowerMsg, sid: Sid)
  {
    match msg
    case SessionOnline(sess) => sess.sid == sid
    case SessionOffline(off) => off == sid
    case SyncSessions(list) => exists i :: 0 <= i < |list| && list[i].sid == sid
  }

  /** More than a minute has passed since the kickoff, if there was one. */
  predicate TooLate(kickoffTime: int, now: int)
  {
    kickoffTime > 0 && now > kickoffTime + 60
  }

  lemma {:induction false} AddAllLeaves(t: Table, list: seq<Session>, sid: Sid)
    requires forall i :: 0 <= i < |list| ==> list[i].sid != sid
    ensures sid in AddAll(t, list) <==> sid in t
    ensures sid in t ==> AddAll(t, list)[sid] == t[sid]
  {
    if list != [] {
      AddAllLeaves(t, list[..|list| - 1], sid);
    }
  }

  // ----- the standalone server -----

  /** Nothing is said about the session, and it is not kicked off. */
  ghost predicate Quiet(acts: seq<Action>, kicked: seq<set<Sid>>, j: nat, sid: Sid)
    requires j < |acts| == |kicked|
  {
    sid !in kicked[j] && (acts[j].Receive? ==> !Mentions(acts[j].msg, sid))
  }

  lemma QuietStep(quota: nat, t: Table, act: Action, t': Table, kicked: set<Sid>, sid: Sid)
    requires S.Step(quota, t, act, t', kicked) && sid !in kicked && (act.Receive? ==> !Mentions(act.msg, sid))
    ensures sid in t' <==> sid in t && !(act.Clean? && TooLate(t[sid].kickoffTime, act.now))
    ensures sid in t' ==> t'[sid] == t[sid]
  {
    if act.Receive? && act.msg.SyncSessions? {
      AddAllLeaves(t, act.msg.list, sid);
    }
  }

  /**
   Over every run of the standalone server, from any time on: as long as no message mentions a session and it is not
   kicked off again, it stays in the table unchanged, if and only if no clean comes more than a minute after its kickoff.
   */
  lemma {:induction false} StaysIff(quota: nat, run: seq<Table>, acts: seq<Action>, kicked: seq<set<Sid>>, m: nat, n: nat,
                                    sid: Sid)
    requires S.IsRun(quota, run, acts, kicked) && m <= n <= |acts| && sid in run[m]
    requires forall j :: m <= j < n ==> Quiet(acts, kicked, j, sid)
    ensures sid in run[n] <==> forall j :: m <= j < n && acts[j].Clean? ==> !TooLate(run[m][sid].kickoffTime, acts[j].now)
    ensures sid in run[n] ==> run[n][sid] == run[m][sid]
  {
    if m < n {
      StaysIff(quota, run, acts, kicked, m, n - 1, sid);
      assert S.Step(quota, run[n - 1], acts[n - 1], run[n], kicked[n - 1]);
      assert Quiet(acts, kicked, n - 1, sid);
      QuietStep(quota, run[n - 1], acts[n - 1], run[n], kicked[n - 1], sid);
    }
  }

  /** The same from a kickoff on: the session goes with the first clean more than a minute later. */
  lemma KickedStaysIff(quota: nat, run: seq<Table>, acts: seq<Action>, kicked: seq<set<Sid>>, m: nat, n: nat, sid: Sid)
    requires S.IsRun(quota, run, acts, kicked) && m < n <= |acts| && sid in kicked[m] && acts[m].now > 0
    requires forall j :: m < j < n ==> Quiet(acts, kicked, j, sid)
    ensures sid in run[n] <==> forall j :: m < j < n && acts[j].Clean? ==> acts[j].now <= acts[m].now + 60
  {
    assert S.Step(quota, run[m], acts[m], run[m + 1], kicked[m]);
    StaysIff(quota, run, acts, kicked, m + 1, n, sid);
  }

  // ----- the leader -----

  /** The leader hears nothing about the session of hub `h`, and does not kick it off. */
  ghost predicate QuietLeader(s: P.State, l: P.Label, h: HubId, sid: Sid)
  {
    && (l.Lead? ==> sid !in l.chosen && (l.h == h && h in s.hubs && s.hubs[h].up != [] ==> !Mentions(s.hubs[h].up[0], sid)))
    && (l.Collect? ==> sid !in l.chosen)
  }

  /** The collection removes the session: its hub is not connected, or its kickoff is too long ago. */
  predicate Drops(s: P.State, l: P.Label, h: HubId, kickoffTime: int)
  {
    l.Collect? && (h !in s.hubs || TooLate(kickoffTime, l.now))
  }

  lemma UpdatedLeaves(kv: C.Store, streams: set<HubId>, g: HubId, act: Action, h: HubId, sid: Sid)
    requires act.Receive? && (g == h ==> !Mentions(act.msg, sid))
    ensures var t, t' := C.HubTable(kv, h), C.HubTable(C.Updated(kv, streams, g, act), h);
            (sid in t' <==> sid in t) && (sid in t ==> t'[sid] == t[sid])
  {
    if act.msg.SyncSessions? && g == h {
      AddAllLeaves(C.HubTable(kv, h), C.Tag(act.msg.list, h), sid);
    }
  }

  lemma MarkLeaves(kv: C.Store, chosen: set<Sid>, streams: set<HubId>, now: int, h: HubId, sid: Sid)
    requires sid !in chosen
    ensures var t, t' := C.HubTable(kv, h), C.HubTable(C.MarkIn(kv, chosen, streams, now), h);
            (sid in t' <==> sid in t) && (sid in t ==> t'[sid] == t[sid])
  {
  }

  lemma QuietLeaderStep(quota: nat, s: P.State, l: P.Label, s': P.State, h: HubId, sid: Sid)
    requires P.Step(quota, s, l, s') && QuietLeader(s, l, h, sid) && sid in C.HubTable(s.kv, h)
    ensures var t, t' := C.HubTable(s.kv, h), C.HubTable(s'.kv, h);
            (sid in t' <==> !Drops(s, l, h, t[sid].kickoffTime)) && (sid in t' ==> t'[sid] == t[sid])
  {
    if l.Lead? {
      var act := Receive(s.hubs[l.h].up[0], l.now);
      UpdatedLeaves(s.kv, s.hubs.Keys, l.h, act, h, sid);
      MarkLeaves(C.Updated(s.kv, s.hubs.Keys, l.h, act), l.chosen, s.hubs.Keys, l.now, h, sid);
    } else if l.Collect? {
      MarkLeaves(C.Collected(s.kv, s.hubs.Keys, l.now), l.chosen, s.hubs.Keys, l.now, h, sid);
    }
  }

  lemma NextLeader(quota: nat, run: seq<P.State>, labels: seq<P.Label>, n: nat, h: HubId, sid: Sid)
    requires P.IsRun(quota, run, labels) && 0 < n <= |labels|
    requires QuietLeader(run[n - 1], labels[n - 1], h, sid) && sid in C.HubTable(run[n - 1].kv, h)
    ensures var t, t' := C.HubTable(run[n - 1].kv, h), C.HubTable(run[n].kv, h);
            && (sid in t' <==> !Drops(run[n - 1], labels[n - 1], h, t[sid].kickoffTime))
            && (sid in t' ==> t'[sid] == t[sid])
  {
    assert P.StepAt(quota, run, labels, n - 1);
    QuietLeaderStep(quota, run[n - 1], labels[n - 1], run[n], h, sid);
  }

  /**
   Over every run of leader and hubs: as long as the leader hears nothing about a session and does not kick it off
   again, it knows the session unchanged, until a collection finds its hub gone or comes more than a minute after its
   kickoff, and that collection forgets it.
   */
  lemma {:induction false} LeaderKeepsUntil(quota: nat, run: seq<P.State>, labels: seq<P.Label>, m: nat, n: nat, h: HubId,
                                            sid: Sid)
    requires P.IsRun(quota, run, labels) && m <= n <= |labels| && sid in C.HubTable(run[m].kv, h)
    requires forall j :: m <= j < n ==> QuietLeader(run[j], labels[j], h, sid)
    requires forall j :: m <= j < n - 1 ==> !Drops(run[j], labels[j], h, C.HubTable(run[m].kv, h)[sid].kickoffTime)
    ensures var t, t' := C.HubTable(run[m].kv, h), C.HubTable(run[n].kv, h);
            && (sid in t' <==> m == n || !Drops(run[n - 1], labels[n - 1], h, t[sid].kickoffTime))
            && (sid in t' ==> t'[sid] == t[sid])
  {
    if m < n {
      LeaderKeepsUntil(quota, run, labels, m, n - 1, h, sid);
      NextLeader(quota, run, labels, n, h, sid);
    }
  }
}
