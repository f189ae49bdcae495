/**
 The leader and its hubs as one system. A hub changes its own session table first and tells the
 leader later; messages travel in order; kickoff messages travel the other way; and the leader's
 garbage collection runs at any time.
 */
module HubProtocol {
  import opened Selection
  import opened Sessions
  import opened Hubs
  import C = ClusterSessions

  /**
   A connected hub. `adding` and `removing` are the sessions put into or taken out of the table whose
   message has not been sent yet; `up` and `down` are the messages on the way; `kicked` are the
   sessions the leader has marked in the hub's part since it joined, or had marked before; `stale`
   are the others the leader still had in that part when the hub joined without them.
   */
  datatype HubState = HubState(handlers: Table, adding: Table, removing: set<Sid>, up: seq<FollowerMsg>,
                               down: seq<set<Sid>>, kicked: set<Sid>, stale: set<Sid>)

  /** Where a session was created, and as what. */
  datatype Birth = Birth(hub: HubId, sess: Session)

  /** The leader's table, the connected hubs and all sessions ever created. */
  datatype State = State(kv: C.Store, hubs: map<HubId, HubState>, born: map<Sid, Birth>)

  const START := State(map[], map[], map[])

  /** A session as its hub knows it, without what the leader adds. */
  function Plain(sess: Session): Session
  {
    sess.(hubId := "", kickoffTime := 0)
  }

  // ----- steps -----

  datatype Label =
    | Join(h: HubId, handlers: Table, list: seq<Session>)
    | Leave(h: HubId)
    | Add(h: HubId, sess: Session)
    | SendOnline(h: HubId, sid: Sid)
    | Del(h: HubId, sid: Sid)
    | SendOffline(h: HubId, sid: Sid)
    | Sync(h: HubId, list: seq<Session>)
    | TakeKickoff(h: HubId)
    | Lead(h: HubId, now: int, chosen: set<Sid>, sent: map<HubId, set<Sid>>)
    | Collect(now: int, chosen: set<Sid>, sent: map<HubId, set<Sid>>)

  function BornWith(born: map<Sid, Birth>, h: HubId, handlers: Table): map<Sid, Birth>
  {
    map s | s in born.Keys + handlers.Keys :: if s in handlers then Birth(h, handlers[s]) else born[s]
  }

  /** The kickoff messages are handed to the hubs. */
  function Handed(hubs: map<HubId, HubState>, sent: map<HubId, set<Sid>>): map<HubId, HubState>
  {
    map h | h in hubs ::
      if h in sent then hubs[h].(down := hubs[h].down + [sent[h]], kicked := hubs[h].kicked + sent[h]) else hubs[h]
  }

  /** A new session is in the hub's table; its message is still to be sent. */
  function Added(hub: HubState, sess: Session): HubState
  {
    hub.(handlers := hub.handlers[sess.sid := sess], adding := hub.adding[sess.sid := sess])
  }

  /** The hub takes a message from the leader: the named sessions are closed, and no offline is sent. */
  function Taken(hub: HubState): HubState
    requires hub.down != []
  {
    hub.(handlers := hub.handlers - hub.down[0], down := hub.down[1..])
  }

  /** What the hub had when it was here before and does not have now, of the part `t` the leader kept. */
  function Gone(t: Table, handlers: Table, marked: bool): set<Sid>
  {
    set x | x in t && x !in handlers && Kicked(t[x]) == marked
  }

  /** A hub connects while the leader has part `t` for it, and reports all its sessions at once. */
  function Joined(t: Table, handlers: Table, list: seq<Session>): HubState
  {
    HubState(handlers, map[], {}, Batches(list, 0), [], Gone(t, handlers, true), Gone(t, handlers, false))
  }

  /** The hub is new, or comes back under its old id with some of the sessions it had and others. */
  ghost predicate Joins(s: State, h: HubId, handlers: Table, list: seq<Session>, s': State)
  {
    && h !in s.hubs
    && (forall x | x in handlers :: Plain(handlers[x]) == handlers[x] && handlers[x].sid == x)
    && (forall x | x in handlers && x in s.born :: s.born[x] == Birth(h, handlers[x]))
    && Lists(list, handlers, handlers.Keys)
    && s' == s.(hubs := s.hubs[h := Joined(C.HubTable(s.kv, h), handlers, list)], born := BornWith(s.born, h, handlers))
  }

  /** A step that changes one hub's state only. */
  ghost predicate HubStep(hub: HubState, l: Label, hub': HubState)
  {
    || (l.SendOnline? && l.sid in hub.adding &&
        hub' == hub.(adding := hub.adding - {l.sid}, up := hub.up + [SessionOnline(hub.adding[l.sid])]))
    || (l.Del? && l.sid in hub.handlers && l.sid !in hub.adding &&
        hub' == hub.(handlers := hub.handlers - {l.sid}, removing := hub.removing + {l.sid}))
    || (l.SendOffline? && l.sid in hub.removing &&
        hub' == hub.(removing := hub.removing - {l.sid}, up := hub.up + [SessionOffline(l.sid)]))
    || (l.Sync? && Lists(l.list, hub.handlers, hub.handlers.Keys) && hub' == hub.(up := hub.up + Batches(l.list, 0)))
    || (l.TakeKickoff? && hub.down != [] && hub' == Taken(hub))
  }

  /** The leader takes the next message of hub `h`, and hands out the kickoff messages. */
  ghost predicate Leads(quota: nat, s: State, h: HubId, now: int, chosen: set<Sid>, sent: map<HubId, set<Sid>>, s': State)
  {
    && h in s.hubs && s.hubs[h].up != []
    && var hub := s.hubs[h];
    && C.Step(quota, s.kv, s.hubs.Keys, h, Receive(hub.up[0], now), chosen, s'.kv, sent)
    && s'.hubs == Handed(s.hubs[h := hub.(up := hub.up[1..])], sent) && s'.born == s.born
  }

  ghost predicate Collects(quota: nat, s: State, now: int, chosen: set<Sid>, sent: map<HubId, set<Sid>>, s': State)
  {
    && C.Step(quota, s.kv, s.hubs.Keys, "", Clean(now), chosen, s'.kv, sent)
    && s'.hubs == Handed(s.hubs, sent) && s'.born == s.born
  }

  /** A new session, with an id never used before, is put into the table of hub `h`. */
  ghost predicate Adds(s: State, h: HubId, sess: Session, s': State)
  {
    && h in s.hubs && sess.sid !in s.born && Plain(sess) == sess
    && s' == s.(hubs := s.hubs[h := Added(s.hubs[h], sess)], born := s.born[sess.sid := Birth(h, sess)])
  }

  ghost predicate Step(quota: nat, s: State, l: Label, s': State)
  {
    || (l.Join? && Joins(s, l.h, l.handlers, l.list, s'))
    || (l.Leave? && l.h in s.hubs && s' == s.(hubs := s.hubs - {l.h}))
    || (l.Add? && Adds(s, l.h, l.sess, s'))
    || (l.Lead? && Leads(quota, s, l.h, l.now, l.chosen, l.sent, s'))
    || (l.Collect? && Collects(quota, s, l.now, l.chosen, l.sent, s'))
    || (!l.Collect? && l.h in s.hubs &&
        exists hub' :: HubStep(s.hubs[l.h], l, hub') && s' == s.(hubs := s.hubs[l.h := hub']))
  }

  ghost predicate StepAt(quota: nat, run: seq<State>, labels: seq<Label>, n: nat)
    requires n < |labels| < |run|
  {
    Step(quota, run[n], labels[n], run[n + 1])
  }

  ghost predicate IsRun(quota: nat, run: seq<State>, labels: seq<Label>)
  {
    && |run| == |labels| + 1 && run[0] == START
    && forall n: nat | n < |labels| :: StepAt(quota, run, labels, n)
  }

  // ----- what is on the way -----

  /** Whether session `sid` is known after a message. */
  ghost predicate Effect(known: bool, msg: FollowerMsg, sid: Sid)
  {
    match msg
    case SessionOnline(sess) => known || sess.sid == sid
    case SessionOffline(off) => known && off != sid
    case SyncSessions(list) => known || sid in SidsOf(list)
  }

  ghost predicate After(known: bool, msgs: seq<FollowerMsg>, sid: Sid)
    decreases |msgs|
  {
    if msgs == [] then known else After(Effect(known, msgs[0], sid), msgs[1..], sid)
  }

  /** Whether the leader will know the session once everything on the way from the hub has arrived. */
  ghost predicate WillKnow(t: Table, hub: HubState, sid: Sid)
  {
    sid !in hub.removing && (sid in hub.adding || After(sid in t, hub.up, sid))
  }

  // ----- invariant -----

  ghost predicate Known(born: map<Sid, Birth>, h: HubId, sess: Session)
  {
    sess.sid in born && born[sess.sid] == Birth(h, sess) && Plain(sess) == sess
  }

  ghost predicate MsgKnown(born: map<Sid, Birth>, h: HubId, msg: FollowerMsg)
  {
    match msg
    case SessionOnline(sess) => Known(born, h, sess)
    case SessionOffline(sid) => true
    case SyncSessions(list) => forall i :: 0 <= i < |list| ==> Known(born, h, list[i])
  }

  ghost predicate TableKnown(born: map<Sid, Birth>, h: HubId, t: Table)
  {
    forall x | x in t :: t[x].sid == x && t[x].hubId == h && Known(born, h, Plain(t[x]))
  }

  /** The session, wherever the hub mentions it, is one of its own. */
  ghost predicate SidKnown(born: map<Sid, Birth>, h: HubId, hub: HubState, x: Sid)
  {
    && (x in hub.handlers ==> hub.handlers[x].sid == x && Known(born, h, hub.handlers[x]))
    && (x in hub.adding ==> hub.adding[x].sid == x && Known(born, h, hub.adding[x]))
    && (x in hub.removing ==> x in born && x !in hub.adding)
    && (x in hub.kicked || x in hub.stale ==> x in born)
  }

  ghost predicate UpKnown(born: map<Sid, Birth>, h: HubId, up: seq<FollowerMsg>)
  {
    forall i :: 0 <= i < |up| ==> MsgKnown(born, h, up[i])
  }

  ghost predicate HubKnown(born: map<Sid, Birth>, h: HubId, hub: HubState)
  {
    UpKnown(born, h, hub.up) && forall x :: SidKnown(born, h, hub, x)
  }

  ghost predicate InDown(down: seq<set<Sid>>, x: Sid)
  {
    exists i :: 0 <= i < |down| && x in down[i]
  }

  /** Whether the leader will know the session does not depend on whether it knows it now. */
  ghost predicate Settled(up: seq<FollowerMsg>, x: Sid)
  {
    After(true, up, x) <==> After(false, up, x)
  }

  /** The leader will know the session, unless kicked off, exactly if the hub has it or it is stale. */
  ghost predicate AgreesOn(t: Table, hub: HubState, x: Sid)
  {
    x !in hub.kicked ==> (WillKnow(t, hub, x) <==> x in hub.handlers || x in hub.stale)
  }

  /** A marked session is kicked or about to be reported anew; a kicked one that the hub has is named in a message to it. */
  ghost predicate KickOnTheWay(t: Table, hub: HubState, x: Sid)
  {
    && (x in t && Kicked(t[x]) ==> x in hub.kicked || Settled(hub.up, x))
    && (x in hub.kicked && x in hub.handlers ==> InDown(hub.down, x))
    && (InDown(hub.down, x) ==> x in hub.kicked)
    && (x in hub.stale ==> x !in hub.handlers)
  }

  ghost predicate HubOkOn(t: Table, hub: HubState, x: Sid)
  {
    AgreesOn(t, hub, x) && KickOnTheWay(t, hub, x)
  }

  ghost predicate HubOk(t: Table, hub: HubState)
  {
    forall x :: HubOkOn(t, hub, x)
  }

  ghost predicate TablesKnown(born: map<Sid, Birth>, kv: C.Store)
  {
    forall h | h in kv :: TableKnown(born, h, kv[h])
  }

  ghost predicate Inv(s: State)
  {
    match s
    case State(kv, hubs, born) =>
      && TablesKnown(born, kv)
      && forall h | h in hubs :: HubKnown(born, h, hubs[h]) && HubOk(C.HubTable(kv, h), hubs[h])
  }
}
