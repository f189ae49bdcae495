/** The leader's view of a hub stays right, up to what is on the way and what was kicked off. */
module HubAgreement {
  import opened Selection
  import opened Sessions
  import opened Hubs
  import opened HubProtocol

  // ----- messages -----

  lemma {:induction false} AfterConcat(known: bool, a: seq<FollowerMsg>, b: seq<FollowerMsg>, x: Sid)
    ensures After(known, a + b, x) == After(After(known, a, x), b, x)
    decreases |a|
  {
    if a == [] {
      assert a + b == b;
    } else {
      assert (a + b)[1..] == a[1..] + b;
      AfterConcat(Effect(known, a[0], x), a[1..], b, x);
    }
  }

  lemma AfterOne(known: bool, msgs: seq<FollowerMsg>, m: FollowerMsg, x: Sid)
    ensures After(known, msgs + [m], x) == Effect(After(known, msgs, x), m, x)
  {
    AfterConcat(known, msgs, [m], x);
  }

  lemma AfterFirst(known: bool, m: FollowerMsg, rest: seq<FollowerMsg>, x: Sid)
    ensures After(known, [m] + rest, x) == After(Effect(known, m, x), rest, x)
  {
    assert ([m] + rest)[1..] == rest;
  }

  lemma {:induction false} AfterBatches(known: bool, list: seq<Session>, from: nat, x: Sid)
    requires from <= |list|
    ensures After(known, Batches(list, from), x) <==> known || x in SidsOf(list[from..])
    decreases |list| - from
  {
    if from == |list| {
      assert list[from..] == [];
    } else if from + BATCH >= |list| {
      AfterOne(known, [], SyncSessions(list[from..]), x);
      assert [] + [SyncSessions(list[from..])] == Batches(list, from);
    } else {
      var first, rest := list[from..from + BATCH], list[from + BATCH..];
      AfterBatches(Effect(known, SyncSessions(first), x), list, from + BATCH, x);
      AfterFirst(known, SyncSessions(first), Batches(list, from + BATCH), x);
      assert list[from..] == first + rest;
      SidsSplit(first, rest);
    }
  }

  lemma {:induction false} BatchesKnown(born: map<Sid, Birth>, h: HubId, list: seq<Session>, from: nat)
    requires from <= |list| && forall i :: 0 <= i < |list| ==> Known(born, h, list[i])
    ensures forall i :: 0 <= i < |Batches(list, from)| ==> MsgKnown(born, h, Batches(list, from)[i])
    decreases |list| - from
  {
    if from + BATCH < |list| {
      BatchesKnown(born, h, list, from + BATCH);
    }
  }

  /** After a sync everything in the list is known, and the rest is as before. */
  lemma AfterSync(known: bool, up: seq<FollowerMsg>, list: seq<Session>, x: Sid)
    ensures After(known, up + Batches(list, 0), x) <==> After(known, up, x) || x in SidsOf(list)
  {
    AfterConcat(known, up, Batches(list, 0), x);
    AfterBatches(After(known, up, x), list, 0, x);
    assert list[0..] == list;
  }

  // ----- the leader's table -----

  lemma {:induction false} AddedKeys(t: Table, list: seq<Session>, h: HubId, x: Sid)
    ensures x in AddAll(t, C.Tag(list, h)) <==> x in t || x in SidsOf(list)
  {
    if list != [] {
      var n := |list| - 1;
      AddedKeys(t, list[..n], h, x);
      assert C.Tag(list, h)[..n] == C.Tag(list[..n], h);
      assert list == list[..n] + [list[n]];
      SidsSplit(list[..n], [list[n]]);
      SidsOfOne(list[n]);
    }
  }

  lemma {:induction false} AddedKnown(born: map<Sid, Birth>, h: HubId, t: Table, list: seq<Session>)
    requires TableKnown(born, h, t) && forall i :: 0 <= i < |list| ==> Known(born, h, list[i])
    ensures TableKnown(born, h, AddAll(t, C.Tag(list, h)))
  {
    if list != [] {
      var n := |list| - 1;
      AddedKnown(born, h, t, list[..n]);
      assert C.Tag(list, h)[..n] == C.Tag(list[..n], h);
      assert Plain(C.Tag(list, h)[n]) == Plain(list[n]) == list[n];
    }
  }

  lemma {:induction false} AddedUnmarked(t: Table, list: seq<Session>, h: HubId, x: Sid)
    requires forall i :: 0 <= i < |list| ==> !Kicked(list[i])
    requires x in AddAll(t, C.Tag(list, h)) && Kicked(AddAll(t, C.Tag(list, h))[x])
    ensures x in t && Kicked(t[x]) && x !in SidsOf(list)
  {
    if list != [] {
      var n := |list| - 1;
      assert C.Tag(list, h)[..n] == C.Tag(list[..n], h);
      AddedUnmarked(t, list[..n], h, x);
      assert list == list[..n] + [list[n]];
      SidsSplit(list[..n], [list[n]]);
    }
  }

  /** What one message does to its hub's part of the table. */
  lemma ReceiveEffect(kv: C.Store, streams: set<HubId>, h: HubId, msg: FollowerMsg, now: int, x: Sid)
    ensures var t1 := C.HubTable(C.Updated(kv, streams, h, Receive(msg, now)), h);
            x in t1 <==> Effect(x in C.HubTable(kv, h), msg, x)
  {
    if msg.SyncSessions? {
      AddedKeys(C.HubTable(kv, h), msg.list, h, x);
    }
  }

  /** A session that is marked after a message was marked before, and the message does not mention it. */
  lemma ReceiveMarks(born: map<Sid, Birth>, kv: C.Store, streams: set<HubId>, h: HubId, msg: FollowerMsg, now: int, x: Sid)
    requires MsgKnown(born, h, msg)
    ensures var t, t1 := C.HubTable(kv, h), C.HubTable(C.Updated(kv, streams, h, Receive(msg, now)), h);
            x in t1 && Kicked(t1[x]) ==> x in t && Kicked(t[x]) && !Effect(false, msg, x) && Effect(true, msg, x)
  {
    if msg.SyncSessions? {
      var t1 := C.HubTable(C.Updated(kv, streams, h, Receive(msg, now)), h);
      if x in t1 && Kicked(t1[x]) {
        AddedUnmarked(C.HubTable(kv, h), msg.list, h, x);
      }
    }
  }

  lemma ReceiveKnown(born: map<Sid, Birth>, kv: C.Store, streams: set<HubId>, h: HubId, msg: FollowerMsg, now: int)
    requires TablesKnown(born, kv) && MsgKnown(born, h, msg)
    ensures TablesKnown(born, C.Updated(kv, streams, h, Receive(msg, now)))
  {
    assert TableKnown(born, h, C.HubTable(kv, h));
    match msg
    case SessionOnline(sess) => assert Plain(sess.(hubId := h)) == sess;
    case SessionOffline(_) =>
    case SyncSessions(list) => AddedKnown(born, h, C.HubTable(kv, h), list);
  }

  lemma CollectKnown(born: map<Sid, Birth>, kv: C.Store, live: set<HubId>, now: int)
    requires TablesKnown(born, kv)
    ensures TablesKnown(born, C.Collected(kv, live, now))
  {
    forall g | g in kv && g in live ensures TableKnown(born, g, Unexpired(kv[g], now)) {
      assert TableKnown(born, g, kv[g]);
    }
  }

  lemma MarkKnown(born: map<Sid, Birth>, kv: C.Store, streams: set<HubId>, chosen: set<Sid>, now: int)
    requires TablesKnown(born, kv)
    ensures TablesKnown(born, C.MarkIn(kv, chosen, streams, now))
  {
    var kv' := C.MarkIn(kv, chosen, streams, now);
    forall g | g in kv' ensures TableKnown(born, g, kv'[g]) {
      assert TableKnown(born, g, kv[g]);
      assert forall x | x in kv'[g] :: Plain(kv'[g][x]) == Plain(kv[g][x]);
    }
  }

  // ----- the leader's steps, for one hub and one session -----

  /** A message taken from the channel and applied leaves what the leader will know as it was. */
  lemma ReceiveOk(born: map<Sid, Birth>, kv: C.Store, streams: set<HubId>, h: HubId, hub: HubState, now: int, x: Sid)
    requires hub.up != [] && MsgKnown(born, h, hub.up[0]) && HubOkOn(C.HubTable(kv, h), hub, x)
    ensures HubOkOn(C.HubTable(C.Updated(kv, streams, h, Receive(hub.up[0], now)), h), hub.(up := hub.up[1..]), x)
  {
    ReceiveEffect(kv, streams, h, hub.up[0], now, x);
    ReceiveMarks(born, kv, streams, h, hub.up[0], now, x);
  }

  /** Collecting removes marked sessions only, and those are kicked or will be reported anew. */
  lemma CollectOk(t: Table, hub: HubState, now: int, x: Sid)
    requires HubOkOn(t, hub, x)
    ensures HubOkOn(Unexpired(t, now), hub, x)
  {
  }

  /** The hub's state once a kickoff message for it was handed over. */
  function HandedTo(hub: HubState, h: HubId, sent: map<HubId, set<Sid>>): HubState
  {
    if h in sent then hub.(down := hub.down + [sent[h]], kicked := hub.kicked + sent[h]) else hub
  }

  /** Kicking off keeps the two in agreement: what is marked is named in a message to its hub. */
  lemma KickOk(kv: C.Store, streams: set<HubId>, h: HubId, hub: HubState, chosen: set<Sid>, now: int, x: Sid)
    requires h in streams && HubOkOn(C.HubTable(kv, h), hub, x)
    ensures HubOkOn(C.HubTable(C.MarkIn(kv, chosen, streams, now), h), HandedTo(hub, h, C.Route(kv, chosen, streams)), x)
  {
    var sent := C.Route(kv, chosen, streams);
    if h in kv && x in kv[h] && x in chosen {
      assert x in chosen * kv[h].Keys;
      assert h in sent && x in sent[h];
    }
    if h in sent {
      InDownMore(hub.down, sent[h], x);
    }
  }

  lemma InDownMore(down: seq<set<Sid>>, last: set<Sid>, x: Sid)
    ensures InDown(down + [last], x) <==> InDown(down, x) || x in last
  {
    if i :| 0 <= i < |down| && x in down[i] {
      assert x in (down + [last])[i];
    }
    if x in last {
      assert x in (down + [last])[|down|];
    }
  }

  lemma HandedKnown(born: map<Sid, Birth>, kv: C.Store, streams: set<HubId>, chosen: set<Sid>, h: HubId, hub: HubState)
    requires HubKnown(born, h, hub) && TableKnown(born, h, C.HubTable(kv, h))
    ensures HubKnown(born, h, HandedTo(hub, h, C.Route(kv, chosen, streams)))
  {
    var hub' := HandedTo(hub, h, C.Route(kv, chosen, streams));
    forall x ensures SidKnown(born, h, hub', x) {
      assert SidKnown(born, h, hub, x);
    }
  }

  /** One message of hub `h`, seen by hub `g`. */
  lemma LeadHub(born: map<Sid, Birth>, kv: C.Store, kv1: C.Store, kv': C.Store, streams: set<HubId>, h: HubId,
                msg: FollowerMsg, now: int, chosen: set<Sid>, g: HubId, hub: HubState, hub': HubState)
    requires g in streams && HubKnown(born, g, hub) && HubOk(C.HubTable(kv, g), hub) && MsgKnown(born, h, msg)
    requires g == h ==> hub.up != [] && hub.up[0] == msg
    requires kv1 == C.Updated(kv, streams, h, Receive(msg, now)) && TablesKnown(born, kv1)
    requires kv' == C.MarkIn(kv1, chosen, streams, now)
    requires hub' == HandedTo(if g == h then hub.(up := hub.up[1..]) else hub, g, C.Route(kv1, chosen, streams))
    ensures HubKnown(born, g, hub') && HubOk(C.HubTable(kv', g), hub')
  {
    var mid := if g == h then hub.(up := hub.up[1..]) else hub;
    MidKnown(born, g, hub, mid);
    forall x ensures HubOkOn(C.HubTable(kv', g), hub', x) {
      assert HubOkOn(C.HubTable(kv, g), hub, x);
      if g == h {
        ReceiveOk(born, kv, streams, h, hub, now, x);
      } else {
        assert C.HubTable(kv1, g) == C.HubTable(kv, g);
      }
      KickOk(kv1, streams, g, mid, chosen, now, x);
    }
    HandedKnown(born, kv1, streams, chosen, g, mid);
  }

  /** Taking a message from the channel leaves the rest known. */
  lemma MidKnown(born: map<Sid, Birth>, h: HubId, hub: HubState, mid: HubState)
    requires HubKnown(born, h, hub) && (mid == hub || (hub.up != [] && mid == hub.(up := hub.up[1..])))
    ensures HubKnown(born, h, mid)
  {
    forall x ensures SidKnown(born, h, mid, x) {
      assert SidKnown(born, h, hub, x);
    }
  }

  lemma LeadKeepsInv(s: State, h: HubId, now: int, chosen: set<Sid>, sent: map<HubId, set<Sid>>, kv1: C.Store, s': State)
    requires Inv(s) && h in s.hubs && s.hubs[h].up != []
    requires kv1 == C.Updated(s.kv, s.hubs.Keys, h, Receive(s.hubs[h].up[0], now))
    requires sent == C.Route(kv1, chosen, s.hubs.Keys)
    requires s' == State(C.MarkIn(kv1, chosen, s.hubs.Keys, now),
                         Handed(s.hubs[h := s.hubs[h].(up := s.hubs[h].up[1..])], sent), s.born)
    ensures Inv(s')
  {
    var streams, msg := s.hubs.Keys, s.hubs[h].up[0];
    assert HubKnown(s.born, h, s.hubs[h]);
    assert MsgKnown(s.born, h, msg);
    ReceiveKnown(s.born, s.kv, streams, h, msg, now);
    MarkKnown(s.born, kv1, streams, chosen, now);
    forall g | g in s'.hubs {
      LeadHub(s.born, s.kv, kv1, s'.kv, streams, h, msg, now, chosen, g, s.hubs[g], s'.hubs[g]);
    }
  }

  /** One collection, seen by hub `g`. */
  lemma CollectHub(born: map<Sid, Birth>, kv: C.Store, kv1: C.Store, kv': C.Store, streams: set<HubId>, now: int,
                   chosen: set<Sid>, g: HubId, hub: HubState, hub': HubState)
    requires g in streams && HubKnown(born, g, hub) && HubOk(C.HubTable(kv, g), hub)
    requires kv1 == C.Collected(kv, streams, now) && TablesKnown(born, kv1)
    requires kv' == C.MarkIn(kv1, chosen, streams, now) && hub' == HandedTo(hub, g, C.Route(kv1, chosen, streams))
    ensures HubKnown(born, g, hub') && HubOk(C.HubTable(kv', g), hub')
  {
    forall x ensures HubOkOn(C.HubTable(kv', g), hub', x) {
      assert HubOkOn(C.HubTable(kv, g), hub, x);
      CollectOk(C.HubTable(kv, g), hub, now, x);
      assert C.HubTable(kv1, g) == Unexpired(C.HubTable(kv, g), now);
      KickOk(kv1, streams, g, hub, chosen, now, x);
    }
    HandedKnown(born, kv1, streams, chosen, g, hub);
  }

  lemma CollectKeepsInv(s: State, now: int, chosen: set<Sid>, sent: map<HubId, set<Sid>>, kv1: C.Store, s': State)
    requires Inv(s) && kv1 == C.Collected(s.kv, s.hubs.Keys, now) && sent == C.Route(kv1, chosen, s.hubs.Keys)
    requires s' == State(C.MarkIn(kv1, chosen, s.hubs.Keys, now), Handed(s.hubs, sent), s.born)
    ensures Inv(s')
  {
    CollectKnown(s.born, s.kv, s.hubs.Keys, now);
    MarkKnown(s.born, kv1, s.hubs.Keys, chosen, now);
    forall g | g in s'.hubs {
      CollectHub(s.born, s.kv, kv1, s'.kv, s.hubs.Keys, now, chosen, g, s.hubs[g], s'.hubs[g]);
    }
  }

  // ----- the hubs' steps -----

  ghost predicate Grows(born: map<Sid, Birth>, more: map<Sid, Birth>)
  {
    forall x | x in born :: x in more && more[x] == born[x]
  }

  /** Every session known before is known after more are born. */
  lemma KnownGrows(born: map<Sid, Birth>, more: map<Sid, Birth>, h: HubId, hub: HubState)
    requires HubKnown(born, h, hub) && Grows(born, more)
    ensures HubKnown(more, h, hub)
  {
    forall x ensures SidKnown(more, h, hub, x) {
      assert SidKnown(born, h, hub, x);
    }
    forall i | 0 <= i < |hub.up| ensures MsgKnown(more, h, hub.up[i]) {
      assert MsgKnown(born, h, hub.up[i]);
    }
  }

  lemma TablesGrow(born: map<Sid, Birth>, more: map<Sid, Birth>, kv: C.Store)
    requires TablesKnown(born, kv) && Grows(born, more)
    ensures TablesKnown(more, kv)
  {
    forall h | h in kv ensures TableKnown(more, h, kv[h]) {
      assert TableKnown(born, h, kv[h]);
    }
  }

  /** A step that leaves the table and the other hubs alone, and lets sessions be born. */
  lemma OthersKeepInv(s: State, h: HubId, hub': HubState, more: map<Sid, Birth>)
    requires Inv(s) && Grows(s.born, more)
    requires HubKnown(more, h, hub') && HubOk(C.HubTable(s.kv, h), hub')
    ensures Inv(s.(hubs := s.hubs[h := hub'], born := more))
  {
    TablesGrow(s.born, more, s.kv);
    forall g | g in s.hubs {
      KnownGrows(s.born, more, g, s.hubs[g]);
    }
  }

  lemma JoinedKnown(born: map<Sid, Birth>, h: HubId, t: Table, handlers: Table, list: seq<Session>)
    requires Lists(list, handlers, handlers.Keys) && forall x | x in handlers :: handlers[x].sid == x && Known(born, h, handlers[x])
    requires TableKnown(born, h, t)
    ensures HubKnown(born, h, Joined(t, handlers, list))
  {
    BatchesKnown(born, h, list, 0);
    forall x ensures SidKnown(born, h, Joined(t, handlers, list), x) {
    }
  }

  /** A hub that joins is right about what it has; what the leader kept besides is stale, or was kicked off. */
  lemma JoinedOk(t: Table, handlers: Table, list: seq<Session>, x: Sid)
    requires Lists(list, handlers, handlers.Keys)
    ensures HubOkOn(t, Joined(t, handlers, list), x)
  {
    AfterBatches(true, list, 0, x);
    AfterBatches(false, list, 0, x);
    assert list[0..] == list;
    assert x in SidsOf(list) <==> x in handlers;
  }

  lemma JoinKeepsInv(s: State, h: HubId, handlers: Table, list: seq<Session>, s': State)
    requires Inv(s) && Joins(s, h, handlers, list, s')
    ensures Inv(s')
  {
    var t := C.HubTable(s.kv, h);
    assert TableKnown(s.born, h, t);
    assert TableKnown(s'.born, h, t);
    JoinedKnown(s'.born, h, t, handlers, list);
    forall x {
      JoinedOk(t, handlers, list, x);
    }
    OthersKeepInv(s, h, Joined(t, handlers, list), s'.born);
  }

  lemma AddedKnownTo(born: map<Sid, Birth>, h: HubId, hub: HubState, sess: Session)
    requires HubKnown(born, h, hub) && sess.sid !in born && Plain(sess) == sess
    ensures HubKnown(born[sess.sid := Birth(h, sess)], h, Added(hub, sess))
  {
    var more := born[sess.sid := Birth(h, sess)];
    KnownGrows(born, more, h, hub);
    forall x ensures SidKnown(more, h, Added(hub, sess), x) {
      assert SidKnown(born, h, hub, x) && SidKnown(more, h, hub, x);
    }
  }

  lemma AddKeepsInv(s: State, h: HubId, sess: Session)
    requires Inv(s) && h in s.hubs && sess.sid !in s.born && Plain(sess) == sess
    ensures Inv(s.(hubs := s.hubs[h := Added(s.hubs[h], sess)], born := s.born[sess.sid := Birth(h, sess)]))
  {
    var hub, t := s.hubs[h], C.HubTable(s.kv, h);
    AddedKnownTo(s.born, h, hub, sess);
    assert SidKnown(s.born, h, hub, sess.sid);
    forall x ensures HubOkOn(t, Added(hub, sess), x) {
      assert HubOkOn(t, hub, x);
    }
    OthersKeepInv(s, h, Added(hub, sess), s.born[sess.sid := Birth(h, sess)]);
  }

  lemma HubStepKnown(born: map<Sid, Birth>, h: HubId, hub: HubState, l: Label, hub': HubState)
    requires HubKnown(born, h, hub) && HubStep(hub, l, hub')
    ensures HubKnown(born, h, hub')
  {
    forall x ensures SidKnown(born, h, hub', x) {
      assert SidKnown(born, h, hub, x);
    }
    if l.Sync? {
      assert forall i :: 0 <= i < |l.list| ==> SidKnown(born, h, hub, l.list[i].sid);
      BatchesKnown(born, h, l.list, 0);
    } else if l.SendOnline? {
      assert SidKnown(born, h, hub, l.sid);
    }
  }

  lemma HubStepOk(born: map<Sid, Birth>, h: HubId, t: Table, hub: HubState, l: Label, hub': HubState, x: Sid)
    requires SidKnown(born, h, hub, x) && HubOkOn(t, hub, x) && HubStep(hub, l, hub')
    requires l.SendOnline? ==> SidKnown(born, h, hub, l.sid)
    ensures HubOkOn(t, hub', x)
  {
    match l
    case SendOnline(_, sid) =>
      AfterOne(true, hub.up, SessionOnline(hub.adding[sid]), x);
      AfterOne(false, hub.up, SessionOnline(hub.adding[sid]), x);
    case SendOffline(_, sid) =>
      AfterOne(true, hub.up, SessionOffline(sid), x);
      AfterOne(false, hub.up, SessionOffline(sid), x);
    case Sync(_, list) =>
      AfterSync(true, hub.up, list, x);
      AfterSync(false, hub.up, list, x);
      assert x in SidsOf(list) <==> x in hub.handlers;
    case TakeKickoff(_) =>
      assert [hub.down[0]] + hub.down[1..] == hub.down;
      InDownFirst(hub.down[0], hub.down[1..], x);
    case _ =>
  }

  lemma InDownFirst(first: set<Sid>, rest: seq<set<Sid>>, x: Sid)
    ensures InDown([first] + rest, x) <==> x in first || InDown(rest, x)
  {
    if x in first {
      assert x in ([first] + rest)[0];
    }
    if i :| 0 <= i < |rest| && x in rest[i] {
      assert x in ([first] + rest)[i + 1];
    }
  }

  lemma HubStepKeepsInv(s: State, l: Label, h: HubId, hub': HubState)
    requires Inv(s) && h in s.hubs && HubStep(s.hubs[h], l, hub')
    ensures Inv(s.(hubs := s.hubs[h := hub']))
  {
    var hub, t := s.hubs[h], C.HubTable(s.kv, h);
    HubStepKnown(s.born, h, hub, l, hub');
    assert l.SendOnline? ==> SidKnown(s.born, h, hub, l.sid);
    forall x ensures HubOkOn(t, hub', x) {
      assert SidKnown(s.born, h, hub, x) && HubOkOn(t, hub, x);
      HubStepOk(s.born, h, t, hub, l, hub', x);
    }
    OthersKeepInv(s, h, hub', s.born);
  }

  // ----- runs -----

  lemma LeadsKeepsInv(quota: nat, s: State, h: HubId, now: int, chosen: set<Sid>, sent: map<HubId, set<Sid>>, s': State)
    requires Inv(s) && Leads(quota, s, h, now, chosen, sent, s')
    ensures Inv(s')
  {
    var kv1 := C.Updated(s.kv, s.hubs.Keys, h, Receive(s.hubs[h].up[0], now));
    LeadKeepsInv(s, h, now, chosen, sent, kv1, s');
  }

  lemma CollectsKeepsInv(quota: nat, s: State, now: int, chosen: set<Sid>, sent: map<HubId, set<Sid>>, s': State)
    requires Inv(s) && Collects(quota, s, now, chosen, sent, s')
    ensures Inv(s')
  {
    CollectKeepsInv(s, now, chosen, sent, C.Collected(s.kv, s.hubs.Keys, now), s');
  }

  lemma LeaveKeepsInv(s: State, h: HubId)
    requires Inv(s)
    ensures Inv(s.(hubs := s.hubs - {h}))
  {
  }

  lemma StepKeepsInv(quota: nat, s: State, l: Label, s': State)
    requires Inv(s) && Step(quota, s, l, s')
    ensures Inv(s')
  {
    if l.Join? && Joins(s, l.h, l.handlers, l.list, s') {
      JoinKeepsInv(s, l.h, l.handlers, l.list, s');
    } else if l.Leave? {
      LeaveKeepsInv(s, l.h);
    } else if l.Add? && Adds(s, l.h, l.sess, s') {
      AddKeepsInv(s, l.h, l.sess);
    } else if l.Lead? && Leads(quota, s, l.h, l.now, l.chosen, l.sent, s') {
      LeadsKeepsInv(quota, s, l.h, l.now, l.chosen, l.sent, s');
    } else if l.Collect? {
      CollectsKeepsInv(quota, s, l.now, l.chosen, l.sent, s');
    } else {
      var hub' :| HubStep(s.hubs[l.h], l, hub') && s' == s.(hubs := s.hubs[l.h := hub']);
      HubStepKeepsInv(s, l, l.h, hub');
    }
  }

  lemma StartInv()
    ensures Inv(START)
  {
  }

  lemma NextInv(quota: nat, run: seq<State>, labels: seq<Label>, n: nat)
    requires IsRun(quota, run, labels) && 0 < n <= |labels| && Inv(run[n - 1])
    ensures Inv(run[n])
  {
    assert StepAt(quota, run, labels, n - 1);
    StepKeepsInv(quota, run[n - 1], labels[n - 1], run[n]);
  }

  lemma {:induction false} RunKeepsInv(quota: nat, run: seq<State>, labels: seq<Label>, n: nat)
    requires IsRun(quota, run, labels) && n <= |labels|
    ensures Inv(run[n])
  {
    if n == 0 {
      StartInv();
    } else {
      RunKeepsInv(quota, run, labels, n - 1);
      NextInv(quota, run, labels, n);
    }
  }

  /**
   Leader and hubs agree in every run: for every connected hub and every session not kicked off, the
   leader will know the session, once all that is on the way has arrived, exactly if the hub has it or
   it is stale, that is, left over from before the hub joined. What the hub has and the leader knows is
   the same session. A session kicked off that the hub still has is named in a message on its way.
   */
  lemma LeaderAgrees(quota: nat, run: seq<State>, labels: seq<Label>, n: nat, h: HubId, x: Sid)
    requires IsRun(quota, run, labels) && n <= |labels| && h in run[n].hubs
    ensures var hub, t := run[n].hubs[h], C.HubTable(run[n].kv, h);
            && (x !in hub.kicked ==> (WillKnow(t, hub, x) <==> x in hub.handlers || x in hub.stale))
            && (x in hub.stale ==> x !in hub.handlers)
            && (x in hub.handlers && x in t ==> Plain(t[x]) == hub.handlers[x])
            && (x in hub.handlers && x in hub.kicked ==> InDown(hub.down, x))
  {
    RunKeepsInv(quota, run, labels, n);
    var hub, t := run[n].hubs[h], C.HubTable(run[n].kv, h);
    assert HubOkOn(t, hub, x) && SidKnown(run[n].born, h, hub, x);
    if x in hub.handlers && x in t {
      assert TableKnown(run[n].born, h, run[n].kv[h]);
    }
  }

  /** Sessions become stale only when their hub joins: those the leader kept for it, unmarked, that it no longer has. */
  lemma StaleSinceJoining(quota: nat, s: State, l: Label, s': State, h: HubId)
    requires Step(quota, s, l, s') && h in s'.hubs
    ensures s'.hubs[h].stale == if h in s.hubs then s.hubs[h].stale else Gone(C.HubTable(s.kv, h), s'.hubs[h].handlers, false)
    ensures h !in s.hubs && C.HubTable(s.kv, h) == map[] ==> s'.hubs[h].stale == {}
  {
  }

  /** A sync reports every session of the hub, whatever the leader knew. */
  lemma SyncTells(quota: nat, s: State, l: Label, s': State, x: Sid)
    requires Step(quota, s, l, s') && l.Sync? && x in s.hubs[l.h].handlers
    ensures l.h in s'.hubs && After(false, s'.hubs[l.h].up, x)
  {
    AfterSync(false, s.hubs[l.h].up, l.list, x);
  }

  /** Sessions become kicked only when the leader names them in a message, or when their hub joins and had them marked. */
  lemma KickedByLeader(quota: nat, s: State, l: Label, s': State, h: HubId, x: Sid)
    requires Step(quota, s, l, s') && h in s'.hubs && x in s'.hubs[h].kicked
    ensures if h !in s.hubs then x in C.HubTable(s.kv, h) && C.HubTable(s.kv, h)[x].kickoffTime > 0
            else || x in s.hubs[h].kicked
                 || ((l.Lead? || l.Collect?) && x in l.chosen && x in C.HubTable(s'.kv, h) &&
                     C.HubTable(s'.kv, h)[x].kickoffTime == l.now)
  {
  }

  /**
   In every run, a hub and the leader agree on all sessions not kicked off, once everything on the way
   has arrived, if and only if every stale session of the hub has been kicked off.
   */
  lemma AgreesIff(quota: nat, run: seq<State>, labels: seq<Label>, n: nat, h: HubId)
    requires IsRun(quota, run, labels) && n <= |labels| && h in run[n].hubs
    ensures var hub, t := run[n].hubs[h], C.HubTable(run[n].kv, h);
            (forall x | x !in hub.kicked :: WillKnow(t, hub, x) <==> x in hub.handlers) <==> hub.stale <= hub.kicked
  {
    var hub, t := run[n].hubs[h], C.HubTable(run[n].kv, h);
    forall x {
      LeaderAgrees(quota, run, labels, n, h, x);
    }
    if x :| x in hub.stale && x !in hub.kicked {
      assert WillKnow(t, hub, x) && x !in hub.handlers;
    }
  }

  /** When nothing is on the way, the hub has exactly the sessions the leader knows, those kicked off or stale aside. */
  lemma QuietHubMatches(quota: nat, run: seq<State>, labels: seq<Label>, n: nat, h: HubId)
    requires IsRun(quota, run, labels) && n <= |labels| && h in run[n].hubs
    requires run[n].hubs[h].up == [] && run[n].hubs[h].down == []
    requires run[n].hubs[h].adding == map[] && run[n].hubs[h].removing == {}
    ensures run[n].hubs[h].handlers.Keys == C.HubTable(run[n].kv, h).Keys - run[n].hubs[h].kicked - run[n].hubs[h].stale
  {
    var hub, t := run[n].hubs[h], C.HubTable(run[n].kv, h);
    forall x ensures x in hub.handlers.Keys <==> x in t.Keys - hub.kicked - hub.stale {
      LeaderAgrees(quota, run, labels, n, h, x);
    }
  }

  /** In every run the leader's table is valid, and no message brings an id that another hub uses. */
  lemma LeaderStaysValid(quota: nat, run: seq<State>, labels: seq<Label>, n: nat)
    requires IsRun(quota, run, labels) && n <= |labels|
    ensures C.Valid(run[n].kv)
    ensures forall h, i | h in run[n].hubs && 0 <= i < |run[n].hubs[h].up| ::
              match run[n].hubs[h].up[i]
              case SessionOnline(sess) => C.FreshFor(run[n].kv, h, sess.sid)
              case SessionOffline(_) => true
              case SyncSessions(list) => forall j :: 0 <= j < |list| ==> C.FreshFor(run[n].kv, h, list[j].sid)
  {
    RunKeepsInv(quota, run, labels, n);
    var s := run[n];
    assert forall h | h in s.kv :: TableKnown(s.born, h, s.kv[h]);
    forall h, i | h in s.hubs && 0 <= i < |s.hubs[h].up| ensures MsgKnown(s.born, h, s.hubs[h].up[i]) {
      assert HubKnown(s.born, h, s.hubs[h]);
    }
  }
}
