/** The leader (`cluster/server.go`): dispatch of follower messages, kickoff routing and session cleaning. */
module PushServer {
  import opened Iteration
  import opened Sessions
  import opened ClusterSessions
  import opened SessionStore

  /** The selected sessions that belong to a hub. */
  function OnHub(sessions: Table, h: HubId): set<Sid>
  {
    set s | s in sessions && sessions[s].hubId == h
  }

  /** The messages by hub, as sets of ids. */
  function AsSets(sent: map<HubId, seq<Sid>>): map<HubId, set<Sid>>
  {
    map h | h in sent :: ToSet(sent[h])
  }

  /** `targets` holds, for every hub with a session not in `left`, the ids of those sessions. */
  ghost predicate Targeted(targets: map<HubId, seq<Sid>>, sessions: Table, left: set<Sid>)
  {
    && (forall h | h in targets :: ToSet(targets[h]) == OnHub(sessions, h) - left && targets[h] != [])
    && (forall h | h !in targets :: OnHub(sessions, h) - left == {})
  }

  class PushServer {
    const quota: nat
    const sessionStore: SessionStore
    var hubStreams: set<HubId>

    constructor (quota: nat)
      ensures this.quota == quota && fresh(sessionStore) && sessionStore.kv == map[] && hubStreams == {}
    {
      this.quota := quota;
      sessionStore := new SessionStore();
      hubStreams := {};
    }

    method AddStream(h: HubId)
      modifies `hubStreams
      ensures hubStreams == old(hubStreams) + {h}
    {
      hubStreams := hubStreams + {h};
    }

    method RemoveStream(h: HubId)
      modifies `hubStreams
      ensures hubStreams == old(hubStreams) - {h}
    {
      hubStreams := hubStreams - {h};
    }

    /** Group the selected sessions by hub. */
    method Targets(sessions: Table) returns (targets: map<HubId, seq<Sid>>)
      requires Keyed(sessions)
      ensures Targeted(targets, sessions, {})
    {
      targets := map[];
      var left := sessions.Keys;
      assert forall h :: OnHub(sessions, h) - left == {};
      while left != {}
        invariant left <= sessions.Keys
        invariant Targeted(targets, sessions, left)
      {
        var sid := NextKey(left);
        var hub := sessions[sid].hubId;
        ghost var before, left0 := targets, left;
        var sids := if hub in targets then targets[hub] else [];
        targets := targets[hub := sids + [sid]];
        left := left - {sid};
        TargetOne(before, sessions, left0, sid);
      }
    }

    /** The connected hubs among `hubs`. */
    method CopyStreamsByFollower(hubs: seq<HubId>) returns (streams: set<HubId>)
      ensures streams == ToSet(hubs) * hubStreams
    {
      streams := {};
      for i := 0 to |hubs|
        invariant streams == ToSet(hubs[..i]) * hubStreams
      {
        assert ToSet(hubs[..i + 1]) == ToSet(hubs[..i]) + {hubs[i]};
        if hubs[i] in hubStreams {
          streams := streams + {hubs[i]};
        }
      }
      assert hubs[..|hubs|] == hubs;
    }

    method StreamsOf(targets: map<HubId, seq<Sid>>) returns (streams: set<HubId>)
      ensures streams == targets.Keys * hubStreams
    {
      var hubs := HubsOf(targets);
      streams := CopyStreamsByFollower(hubs);
    }

    /** Send one hub its message and mark the sessions named in it; a hub the send finds gone loses its stream. */
    method SendTo(hub: HubId, sids: seq<Sid>, now: int, fails: bool)
      requires hub in sessionStore.kv && forall i :: 0 <= i < |sids| ==> sids[i] in sessionStore.kv[hub]
      modifies `hubStreams, sessionStore
      ensures sessionStore.kv == old(sessionStore.kv)[hub := Mark(old(sessionStore.kv)[hub], ToSet(sids), now)]
      ensures hubStreams == if fails then old(hubStreams) - {hub} else old(hubStreams)
    {
      if fails {
        RemoveStream(hub);
      }
      sessionStore.MarkHub(hub, sids, now);
    }

    /** The loop over the connected hubs. */
    method SendAll(targets: map<HubId, seq<Sid>>, streams: set<HubId>, now: int, failing: set<HubId>, ghost selected: set<Sid>)
      returns (sent: map<HubId, seq<Sid>>)
      requires Aligned(sessionStore.kv, selected, targets) && streams <= targets.Keys
      modifies `hubStreams, sessionStore
      ensures sessionStore.kv == MarkIn(old(sessionStore.kv), selected, streams, now)
      ensures sent == SentTo(targets, streams)
      ensures hubStreams == StreamsLeft(old(hubStreams), failing, streams)
    {
      ghost var kv0, done := sessionStore.kv, {};
      sent := map[];
      var left := streams;
      assert MarkIn(kv0, selected, done, now) == kv0;
      assert StreamsLeft(hubStreams, failing, done) == hubStreams;
      while left != {}
        invariant left <= streams && done == streams - left
        invariant sessionStore.kv == MarkIn(kv0, selected, done, now)
        invariant sent == SentTo(targets, done)
        invariant hubStreams == StreamsLeft(old(hubStreams), failing, done)
      {
        var hub := NextKey(left);
        var sids := targets[hub];
        assert ToSet(sids) == selected * kv0[hub].Keys;
        assert forall i :: 0 <= i < |sids| ==> sids[i] in ToSet(sids);
        MarkNextHub(kv0, selected, done, hub, now);
        NextSent(targets, done, hub, old(hubStreams), failing);
        SendTo(hub, sids, now, hub in failing);
        sent := sent[hub := sids];
        left := left - {hub};
        done := done + {hub};
      }
      assert done == streams;
    }

    /**
     Send each connected hub its sessions and mark them. The sessions are marked whether or not the
     message could be sent; a hub in `failing`, which the send finds gone, loses its stream.
     */
    method Kickoff(sessions: Table, now: int, failing: set<HubId>) returns (sent: map<HubId, seq<Sid>>)
      requires Valid(sessionStore.kv) && Keyed(sessions)
      requires forall s | s in sessions :: s in Flat(sessionStore.kv) && sessions[s] == Flat(sessionStore.kv)[s]
      modifies `hubStreams, sessionStore
      ensures sessionStore.kv == MarkIn(old(sessionStore.kv), sessions.Keys, old(hubStreams), now)
      ensures AsSets(sent) == Route(old(sessionStore.kv), sessions.Keys, old(hubStreams))
      ensures hubStreams == StreamsLeft(old(hubStreams), failing, sent.Keys)
    {
      ghost var kv0, streams0 := sessionStore.kv, hubStreams;
      var targets := Targets(sessions);
      Routed(kv0, sessions, streams0, targets, now);
      var streams := StreamsOf(targets);
      sent := SendAll(targets, streams, now, failing, sessions.Keys);
      assert sent.Keys == streams;
    }

    /** The dispatch of one message from a hub. */
    method Receive(hubId: HubId, msg: FollowerMsg, now: int, failing: set<HubId>)
      returns (sent: map<HubId, seq<Sid>>, ghost chosen: set<Sid>)
      requires Valid(sessionStore.kv)
      requires msg.SessionOnline? ==> FreshFor(sessionStore.kv, hubId, msg.sess.sid)
      requires msg.SyncSessions? ==> forall i :: 0 <= i < |msg.list| ==> FreshFor(sessionStore.kv, hubId, msg.list[i].sid)
      modifies `hubStreams, sessionStore
      ensures Valid(sessionStore.kv)
      ensures hubStreams == StreamsLeft(old(hubStreams), failing, sent.Keys)
      ensures Step(quota, old(sessionStore.kv), old(hubStreams), hubId, Action.Receive(msg, now), chosen,
                   sessionStore.kv, AsSets(sent))
    {
      sent, chosen := map[], {};
      match msg
      case SessionOnline(sess) =>
        AddKeepsValid(sessionStore.kv, hubId, sess);
        sessionStore.Add(hubId, sess);
        var kickoff := sessionStore.GetUserSessionsToKickoff(sess.uid, quota);
        chosen := kickoff.Keys;
        sent := KickoffIfAny(kickoff, now, failing);
      case SessionOffline(sid) =>
        DelKeepsValid(sessionStore.kv, hubId, sid);
        sessionStore.Del(hubId, sid);
        NobodySelected(sessionStore.kv, hubStreams, now);
      case SyncSessions(list) =>
        AddManyKeepsValid(sessionStore.kv, hubId, list);
        sessionStore.AddMany(hubId, list);
        NobodySelected(sessionStore.kv, hubStreams, now);
    }

    /**
     The life of a hub's stream: it is registered, its messages are handled one after the other, each as a step of
     the specification on the table the one before left, and in the end it is removed.
     */
    method ServeStream(hubId: HubId, incoming: seq<Incoming>) returns (ghost served: seq<Served>)
      requires Valid(sessionStore.kv) && forall i :: 0 <= i < |incoming| ==> NewTo(sessionStore.kv, hubId, incoming[i].msg)
      modifies `hubStreams, sessionStore
      ensures Valid(sessionStore.kv) && hubId !in hubStreams
      ensures exists streams :: hubStreams == streams - {hubId} &&
                Serves(quota, hubId, old(sessionStore.kv), old(hubStreams) + {hubId}, incoming, served, sessionStore.kv, streams)
      ensures forall g | g in old(hubStreams) && g != hubId && NeverFails(incoming, g) :: g in hubStreams
    {
      served := [];
      AddStream(hubId);
      ghost var streams0 := hubStreams;
      for i := 0 to |incoming|
        invariant Valid(sessionStore.kv)
        invariant forall g | g in streams0 && NeverFails(incoming, g) :: g in hubStreams
        invariant forall k :: 0 <= k < |incoming| ==> NewTo(sessionStore.kv, hubId, incoming[k].msg)
        invariant Serves(quota, hubId, old(sessionStore.kv), streams0, incoming[..i], served, sessionStore.kv, hubStreams)
      {
        ghost var one := Serve(hubId, incoming[i], incoming);
        ServesMore(quota, hubId, old(sessionStore.kv), streams0, incoming, i, served, one, hubStreams);
        served := served + [one];
      }
      RemoveStream(hubId);
      assert incoming[..|incoming|] == incoming;
    }

    /** One message of a stream; the messages to come stay new. */
    method Serve(hubId: HubId, m: Incoming, ghost all: seq<Incoming>) returns (ghost r: Served)
      requires Valid(sessionStore.kv) && NewTo(sessionStore.kv, hubId, m.msg)
      modifies `hubStreams, sessionStore
      ensures Valid(sessionStore.kv) && IsServed(quota, hubId, m, r)
      ensures hubStreams == StreamsLeft(old(hubStreams), m.failing, r.sent.Keys)
      ensures r.kv == old(sessionStore.kv) && r.kv' == sessionStore.kv && r.streams == old(hubStreams)
      ensures forall k :: 0 <= k < |all| && NewTo(old(sessionStore.kv), hubId, all[k].msg) ==>
                NewTo(sessionStore.kv, hubId, all[k].msg)
    {
      ghost var kv, streams := sessionStore.kv, hubStreams;
      var sent, chosen := Receive(hubId, m.msg, m.now, m.failing);
      r := Served(kv, streams, chosen, AsSets(sent), sessionStore.kv);
      forall k | 0 <= k < |all| && NewTo(kv, hubId, all[k].msg) ensures NewTo(sessionStore.kv, hubId, all[k].msg) {
        StillNew(kv, streams, hubId, m.msg, m.now, chosen, all[k].msg);
      }
    }

    /** The periodic session cleaning. */
    method CleanSessions(ghost hubId: HubId, now: int, failing: set<HubId>)
      returns (sent: map<HubId, seq<Sid>>, ghost chosen: set<Sid>)
      requires Valid(sessionStore.kv)
      modifies `hubStreams, sessionStore
      ensures Valid(sessionStore.kv)
      ensures Step(quota, old(sessionStore.kv), old(hubStreams), hubId, Clean(now), chosen, sessionStore.kv, AsSets(sent))
    {
      var kickoff := sessionStore.Gc(hubStreams, quota, now);
      chosen := kickoff.Keys;
      sent := KickoffIfAny(kickoff, now, failing);
    }

    /** No message is sent when nobody is selected. */
    method KickoffIfAny(kickoff: Table, now: int, failing: set<HubId>) returns (sent: map<HubId, seq<Sid>>)
      requires Valid(sessionStore.kv)
      requires forall s | s in kickoff :: s in Flat(sessionStore.kv) && kickoff[s] == Flat(sessionStore.kv)[s]
      modifies `hubStreams, sessionStore
      ensures Valid(sessionStore.kv)
      ensures sessionStore.kv == MarkIn(old(sessionStore.kv), kickoff.Keys, old(hubStreams), now)
      ensures AsSets(sent) == Route(old(sessionStore.kv), kickoff.Keys, old(hubStreams))
      ensures hubStreams == StreamsLeft(old(hubStreams), failing, sent.Keys)
    {
      sent := map[];
      FlatKeyed(sessionStore.kv);
      MarkKeepsValid(sessionStore.kv, kickoff.Keys, hubStreams, now);
      if |kickoff| > 0 {
        sent := Kickoff(kickoff, now, failing);
      } else {
        assert kickoff.Keys == {};
        NobodySelected(sessionStore.kv, hubStreams, now);
      }
    }
  }

  /** One message of a hub's stream: when it is handled, and which hubs a send would then find gone. */
  datatype Incoming = Incoming(msg: FollowerMsg, now: int, failing: set<HubId>)

  /** The ids in a message are used by no other hub. */
  ghost predicate NewTo(kv: Store, h: HubId, msg: FollowerMsg)
  {
    match msg
    case SessionOnline(sess) => FreshFor(kv, h, sess.sid)
    case SessionOffline(_) => true
    case SyncSessions(list) => forall i :: 0 <= i < |list| ==> FreshFor(kv, h, list[i].sid)
  }

  /** A message of hub `h` brings no id into the part of another hub. */
  lemma OthersKeepIds(kv: Store, streams: set<HubId>, h: HubId, msg: FollowerMsg, now: int, chosen: set<Sid>, s: Sid)
    requires FreshFor(kv, h, s)
    ensures FreshFor(MarkIn(Updated(kv, streams, h, Action.Receive(msg, now)), chosen, streams, now), h, s)
  {
  }

  lemma StillNew(kv: Store, streams: set<HubId>, h: HubId, msg: FollowerMsg, now: int, chosen: set<Sid>, later: FollowerMsg)
    requires NewTo(kv, h, later)
    ensures NewTo(MarkIn(Updated(kv, streams, h, Action.Receive(msg, now)), chosen, streams, now), h, later)
  {
    match later
    case SessionOnline(sess) => OthersKeepIds(kv, streams, h, msg, now, chosen, sess.sid);
    case SessionOffline(_) =>
    case SyncSessions(list) =>
      forall i | 0 <= i < |list| {
        OthersKeepIds(kv, streams, h, msg, now, chosen, list[i].sid);
      }
  }

  /** What a stream did: the tables and streams it went through, and what each message selected and sent. */
  datatype Served = Served(kv: Store, streams: set<HubId>, chosen: set<Sid>, sent: map<HubId, set<Sid>>, kv': Store)

  /** The message was handled as a step of the specification. */
  ghost predicate IsServed(quota: nat, h: HubId, m: Incoming, r: Served)
  {
    Step(quota, r.kv, r.streams, h, Action.Receive(m.msg, m.now), r.chosen, r.kv', r.sent)
  }

  /**
   The messages were handled one after the other, from table `kv` and the streams of the hubs in `streams` to those
   in `kv'` and `streams'`. A hub loses its stream only when a send finds it gone.
   */
  ghost predicate Serves(quota: nat, h: HubId, kv: Store, streams: set<HubId>, incoming: seq<Incoming>, served: seq<Served>,
                         kv': Store, streams': set<HubId>)
    decreases |served|
  {
    && |served| == |incoming|
    && if served == [] then kv' == kv && streams' == streams
       else
         var n := |served| - 1;
         && IsServed(quota, h, incoming[n], served[n]) && served[n].kv' == kv'
         && streams' == StreamsLeft(served[n].streams, incoming[n].failing, served[n].sent.Keys)
         && Serves(quota, h, kv, streams, incoming[..n], served[..n], served[n].kv, served[n].streams)
  }

  lemma ServesMore(quota: nat, h: HubId, kv: Store, streams: set<HubId>, incoming: seq<Incoming>, i: nat, served: seq<Served>,
                   one: Served, streams': set<HubId>)
    requires i < |incoming| && Serves(quota, h, kv, streams, incoming[..i], served, one.kv, one.streams)
    requires IsServed(quota, h, incoming[i], one)
    requires streams' == StreamsLeft(one.streams, incoming[i].failing, one.sent.Keys)
    ensures Serves(quota, h, kv, streams, incoming[..i + 1], served + [one], one.kv', streams')
  {
    assert incoming[..i + 1][..i] == incoming[..i] && (served + [one])[..i] == served;
  }

  /** No send finds the hub gone. */
  predicate NeverFails(incoming: seq<Incoming>, g: HubId)
  {
    forall i :: 0 <= i < |incoming| ==> g !in incoming[i].failing
  }

  /** The hubs with selected sessions, as a list. */
  method HubsOf(targets: map<HubId, seq<Sid>>) returns (hubs: seq<HubId>)
    ensures ToSet(hubs) == targets.Keys
  {
    hubs := [];
    var left := targets.Keys;
    while left != {}
      invariant left <= targets.Keys && ToSet(hubs) == targets.Keys - left
    {
      var hub := NextKey(left);
      assert ToSet(hubs + [hub]) == ToSet(hubs) + {hub};
      assert targets.Keys - left + {hub} == targets.Keys - (left - {hub});
      hubs := hubs + [hub];
      left := left - {hub};
    }
  }

  /** Every hub in `targets` owns exactly the sessions listed for it, and no other hub owns a selected one. */
  ghost predicate Aligned(kv: Store, selected: set<Sid>, targets: map<HubId, seq<Sid>>)
  {
    && (forall h | h in targets :: h in kv && ToSet(targets[h]) == selected * kv[h].Keys)
    && (forall h | h in kv :: h in targets <==> selected * kv[h].Keys != {})
  }

  /** Sending the targets to the connected hubs marks and sends what the routing says. */
  lemma Routed(kv: Store, sessions: Table, streams: set<HubId>, targets: map<HubId, seq<Sid>>, now: int)
    requires Valid(kv) && forall s | s in sessions :: s in Flat(kv) && sessions[s] == Flat(kv)[s]
    requires Targeted(targets, sessions, {})
    ensures Aligned(kv, sessions.Keys, targets)
    ensures MarkIn(kv, sessions.Keys, targets.Keys * streams, now) == MarkIn(kv, sessions.Keys, streams, now)
    ensures AsSets(SentTo(targets, targets.Keys * streams)) == Route(kv, sessions.Keys, streams)
  {
    TargetsAlign(kv, sessions, targets);
    AllMarked(kv, sessions.Keys, streams, targets, now);
    AllSent(kv, sessions.Keys, streams, targets);
  }

  lemma TargetsAlign(kv: Store, sessions: Table, targets: map<HubId, seq<Sid>>)
    requires Valid(kv) && forall s | s in sessions :: s in Flat(kv) && sessions[s] == Flat(kv)[s]
    requires Targeted(targets, sessions, {})
    ensures Aligned(kv, sessions.Keys, targets)
  {
    forall h | h in targets ensures h in kv && ToSet(targets[h]) == sessions.Keys * kv[h].Keys {
      OwnedTarget(kv, sessions, h);
      assert OnHub(sessions, h) - {} == OnHub(sessions, h);
      assert targets[h][0] in ToSet(targets[h]);
    }
    forall h | h in kv ensures h in targets <==> sessions.Keys * kv[h].Keys != {} {
      OwnedTarget(kv, sessions, h);
      assert OnHub(sessions, h) - {} == OnHub(sessions, h);
      if h in targets {
        assert targets[h][0] in ToSet(targets[h]);
      }
    }
  }

  lemma TargetOne(before: map<HubId, seq<Sid>>, sessions: Table, left: set<Sid>, sid: Sid)
    requires Targeted(before, sessions, left) && sid in left && sid in sessions
    ensures var hub := sessions[sid].hubId;
            Targeted(before[hub := (if hub in before then before[hub] else []) + [sid]], sessions, left - {sid})
  {
    var hub := sessions[sid].hubId;
    var targets := before[hub := (if hub in before then before[hub] else []) + [sid]];
    forall h | h in targets ensures ToSet(targets[h]) == OnHub(sessions, h) - (left - {sid}) {
      if h == hub {
        assert OnHub(sessions, h) - (left - {sid}) == OnHub(sessions, h) - left + {sid};
      } else {
        assert OnHub(sessions, h) - (left - {sid}) == OnHub(sessions, h) - left;
      }
    }
    forall h | h !in targets ensures OnHub(sessions, h) - (left - {sid}) == {} {
      assert OnHub(sessions, h) - (left - {sid}) == OnHub(sessions, h) - left;
    }
  }

  /** The sessions selected for a hub are the selected ones in that hub's part of the table. */
  lemma OwnedTarget(kv: Store, sessions: Table, h: HubId)
    requires Valid(kv) && forall s | s in sessions :: s in Flat(kv) && sessions[s] == Flat(kv)[s]
    ensures OnHub(sessions, h) == sessions.Keys * HubTable(kv, h).Keys
    ensures OnHub(sessions, h) != {} ==> h in kv
  {
    forall s ensures s in OnHub(sessions, h) <==> s in sessions.Keys * HubTable(kv, h).Keys {
      if s in sessions {
        var g := HubOf(kv, s);
        assert kv[g][s].hubId == g;
        if h in kv && s in kv[h] {
          FlatAt(kv, h, s);
        }
      }
    }
    if s :| s in OnHub(sessions, h) {
      assert s in HubTable(kv, h).Keys;
    }
  }

  /** The messages to the hubs in `done`. */
  function SentTo(targets: map<HubId, seq<Sid>>, done: set<HubId>): map<HubId, seq<Sid>>
  {
    map h | h in targets && h in done :: targets[h]
  }

  /** The streams that remain after the sends to `done`. */
  function StreamsLeft(streams: set<HubId>, failing: set<HubId>, done: set<HubId>): set<HubId>
  {
    set h | h in streams && !(h in failing && h in done)
  }

  lemma NextSent(targets: map<HubId, seq<Sid>>, done: set<HubId>, h: HubId, streams: set<HubId>, failing: set<HubId>)
    requires h in targets
    ensures SentTo(targets, done + {h}) == SentTo(targets, done)[h := targets[h]]
    ensures StreamsLeft(streams, failing, done + {h}) ==
            if h in failing then StreamsLeft(streams, failing, done) - {h} else StreamsLeft(streams, failing, done)
  {
  }

  lemma NobodySelected(kv: Store, streams: set<HubId>, now: int)
    ensures MarkIn(kv, {}, streams, now) == kv && Route(kv, {}, streams) == map[]
  {
    forall h | h in kv ensures Mark(kv[h], {}, now) == kv[h] {
    }
    assert forall h | h in kv :: {} * kv[h].Keys == {};
  }

  lemma MarkNextHub(kv: Store, sids: set<Sid>, done: set<HubId>, h: HubId, now: int)
    requires h in kv && h !in done
    ensures MarkIn(kv, sids, done + {h}, now) ==
            MarkIn(kv, sids, done, now)[h := Mark(kv[h], sids * kv[h].Keys, now)]
    ensures MarkIn(kv, sids, done, now)[h] == kv[h]
  {
    assert Mark(kv[h], sids * kv[h].Keys, now) == Mark(kv[h], sids, now);
  }

  lemma AllMarked(kv: Store, sids: set<Sid>, streams: set<HubId>, targets: map<HubId, seq<Sid>>, now: int)
    requires Aligned(kv, sids, targets)
    ensures MarkIn(kv, sids, targets.Keys * streams, now) == MarkIn(kv, sids, streams, now)
  {
    forall h | h in kv && h !in targets ensures Mark(kv[h], sids, now) == kv[h] {
      assert forall s | s in kv[h] && s in sids :: s in sids * kv[h].Keys;
    }
  }

  lemma AllSent(kv: Store, sids: set<Sid>, streams: set<HubId>, targets: map<HubId, seq<Sid>>)
    requires Aligned(kv, sids, targets)
    ensures AsSets(SentTo(targets, targets.Keys * streams)) == Route(kv, sids, streams)
  {
  }
}
