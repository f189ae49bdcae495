/** A hub that comes back under its old id too early: the leader keeps a session that is closed. */
module Rejoining {
  import opened Selection
  import opened Sessions
  import opened HubProtocol

  /** The leader's part for hub `h` with one session. */
  function Part(h: HubId, lost: Session): Table
  {
    map[lost.sid := lost.(hubId := h)]
  }

  function Serving(handlers: Table, stale: set<Sid>): HubState
  {
    HubState(handlers, map[], {}, [], [], {}, stale)
  }

  /** The hub serves one session and reports it. The connection breaks, the session closes, the hub is back. */
  function Comeback(h: HubId, lost: Session, n: nat): State
    requires n <= 6
  {
    var born, one := map[lost.sid := Birth(h, lost)], map[lost.sid := lost];
    if n == 0 then START
    else if n == 1 then State(map[], map[h := Serving(map[], {})], map[])
    else if n == 2 then State(map[], map[h := Serving(one, {}).(adding := one)], born)
    else if n == 3 then State(map[], map[h := Serving(one, {}).(up := [SessionOnline(lost)])], born)
    else if n == 4 then State(map[h := Part(h, lost)], map[h := Serving(one, {})], born)
    else if n == 5 then State(map[h := Part(h, lost)], map[], born)
    else State(map[h := Part(h, lost)], map[h := Serving(map[], {lost.sid})], born)
  }

  function LabelAt(h: HubId, lost: Session, n: nat): Label
  {
    if n == 0 || n >= 5 then Join(h, map[], [])
    else if n == 1 then Add(h, lost)
    else if n == 2 then SendOnline(h, lost.sid)
    else if n == 3 then Lead(h, 1, {}, map[])
    else Leave(h)
  }

  /** A hub with no sessions joins: everything the leader has for it, unmarked, becomes stale. */
  lemma EmptyJoins(s: State, h: HubId, t: Table, s': State)
    requires h !in s.hubs && t == C.HubTable(s.kv, h) && forall x | x in t :: !Kicked(t[x])
    requires s' == s.(hubs := s.hubs[h := Serving(map[], t.Keys)])
    ensures Joins(s, h, map[], [], s')
  {
    var none: Table := map[];
    assert SidsOf([]) == none.Keys;
    assert Gone(t, none, true) == {} && Gone(t, none, false) == t.Keys;
    assert BornWith(s.born, h, none) == s.born;
  }

  lemma Reports(s: State, h: HubId, lost: Session, s': State)
    requires s == Comeback(h, lost, 2) && s' == Comeback(h, lost, 3)
    ensures exists hub' :: HubStep(s.hubs[h], SendOnline(h, lost.sid), hub') && s' == s.(hubs := s.hubs[h := hub'])
  {
    var l := SendOnline(h, lost.sid);
    assert s.hubs[h].adding - {lost.sid} == map[];
    assert HubStep(s.hubs[h], l, s'.hubs[h]);
  }

  /** The leader hears of the session; one session is within any quota of at least one. */
  lemma ServerHears(quota: nat, h: HubId, lost: Session)
    requires quota >= 1
    ensures C.Step(quota, map[], {h}, h, Receive(SessionOnline(lost), 1), {}, map[h := Part(h, lost)], map[])
  {
    var none: C.Store := map[];
    var kv1 := C.Updated(none, {h}, h, Receive(SessionOnline(lost), 1));
    assert kv1 == map[h := Part(h, lost)];
    NobodyOver(quota, kv1, h, lost);
    assert Mark(Part(h, lost), {}, 1) == Part(h, lost);
    assert C.MarkIn(kv1, {}, {h}, 1) == kv1;
    assert C.Route(kv1, {}, {h}) == map[];
  }

  lemma Hears(quota: nat, s: State, h: HubId, lost: Session, s': State)
    requires quota >= 1 && s == Comeback(h, lost, 3) && s' == Comeback(h, lost, 4)
    ensures Leads(quota, s, h, 1, {}, map[], s')
  {
    ServerHears(quota, h, lost);
    assert s.hubs.Keys == {h};
    assert s.hubs[h].up[1..] == [];
    assert s'.hubs == Handed(s.hubs[h := s.hubs[h].(up := [])], map[]);
  }

  lemma NobodyOver(quota: nat, kv: C.Store, h: HubId, lost: Session)
    requires quota >= 1 && kv == map[h := Part(h, lost)]
    ensures OverQuota(C.Flat(kv), lost.uid, quota, {})
  {
    C.FlatAt(kv, h, lost.sid);
    assert C.Sids(kv) == {lost.sid};
    assert OfUser(C.Flat(kv), lost.uid) == {lost.sid};
  }

  lemma ComebackStep(quota: nat, h: HubId, lost: Session, n: nat)
    requires quota >= 1 && Plain(lost) == lost && n < 6
    ensures Step(quota, Comeback(h, lost, n), LabelAt(h, lost, n), Comeback(h, lost, n + 1))
  {
    var s, s' := Comeback(h, lost, n), Comeback(h, lost, n + 1);
    if n == 0 || n == 5 {
      var t := C.HubTable(s.kv, h);
      assert t.Keys == if n == 0 then {} else {lost.sid};
      EmptyJoins(s, h, t, s');
    } else if n == 2 {
      Reports(s, h, lost, s');
    } else if n == 3 {
      Hears(quota, s, h, lost, s');
    }
  }

  /**
   For every hub, every new session and every quota there is a run after which nothing is on the way,
   and the leader knows the session while its hub does not and no kickoff was sent.
   */
  lemma StaleRun(quota: nat, h: HubId, lost: Session) returns (run: seq<State>, labels: seq<Label>)
    requires quota >= 1 && Plain(lost) == lost
    ensures IsRun(quota, run, labels)
    ensures var s := run[|run| - 1];
            && h in s.hubs && s.hubs[h].up == [] && s.hubs[h].down == []
            && s.hubs[h].adding == map[] && s.hubs[h].removing == {}
            && lost.sid in C.HubTable(s.kv, h) && lost.sid !in s.hubs[h].handlers && lost.sid !in s.hubs[h].kicked
  {
    run := seq(7, n requires 0 <= n < 7 => Comeback(h, lost, n));
    labels := seq(6, n requires 0 <= n < 6 => LabelAt(h, lost, n));
    forall n: nat | n < 6 ensures StepAt(quota, run, labels, n) {
      ComebackStep(quota, h, lost, n);
    }
  }
}
