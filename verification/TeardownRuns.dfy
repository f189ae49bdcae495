/** For which causes sessions are closed, and runs in which they are not. */
module TeardownRuns {
  import opened Options
  import opened Teardown

  const ADDER: Tid := 0
  const RECV: Tid := 1
  const SEND: Tid := 2
  const HUB: Tid := 3

  /** The threads of a session. */
  function RoleOf(t: Tid): Role
  {
    if t == ADDER then Adder else if t == RECV then RecvLoop else if t == SEND then SendLoop else HubThread
  }

  /** The state in which thread `t` is at `pc`, the loops in `gone` have returned and the others are idle. */
  function At(gone: set<Tid>, t: Tid, pc: Pc, c: Shared): State
  {
    State(map u: Tid | 0 <= u <= HUB :: Thread(RoleOf(u), if u == t then pc else if u in gone then Ended else Idle), c)
  }

  /** A run that gets there. */
  ghost predicate Reaches(run: seq<State>, who: seq<Tid>, gone: set<Tid>, t: Tid, pc: Pc, c: Shared)
  {
    IsRun(ADDER, run, who) && run[|run| - 1] == At(gone, t, pc, c)
  }

  lemma MoveIsStep(gone: set<Tid>, t: Tid, pc: Pc, c: Shared, pc': Pc, c': Shared)
    requires t <= HUB && Moves(t, RoleOf(t), c, pc, c', pc')
    ensures Step(At(gone, t, pc, c), t, At(gone, t, pc', c'))
  {
    assert At(gone, t, pc', c').threads == At(gone, t, pc, c).threads[t := Thread(RoleOf(t), pc')];
  }

  /** The thread makes its next move. */
  lemma Act(run: seq<State>, who: seq<Tid>, gone: set<Tid>, t: Tid, pc: Pc, c: Shared, pc': Pc, c': Shared)
    returns (run': seq<State>, who': seq<Tid>)
    requires t <= HUB && Reaches(run, who, gone, t, pc, c) && Moves(t, RoleOf(t), c, pc, c', pc')
    ensures Reaches(run', who', gone, t, pc', c')
  {
    run', who' := run + [At(gone, t, pc', c')], who + [t];
    MoveIsStep(gone, t, pc, c, pc', c');
    forall n | 0 <= n < |who'| ensures Step(run'[n], who'[n], run'[n + 1]) {
      if n < |who| {
        assert Step(run[n], who[n], run[n + 1]);
      }
    }
  }

  /** Another thread is looked at. */
  lemma Switch(run: seq<State>, who: seq<Tid>, gone: set<Tid>, t: Tid, pc: Pc, u: Tid, c: Shared)
    requires Reaches(run, who, gone, t, pc, c) && u !in gone && t !in gone && t <= HUB && (pc == Idle || (pc == Ended && t != u))
    ensures Reaches(run, who, if pc == Ended then gone + {t} else gone, u, Idle, c)
  {
    assert At(gone, t, pc, c) == At(if pc == Ended then gone + {t} else gone, u, Idle, c);
  }

  /** The session is added and announced. */
  lemma Announce() returns (run: seq<State>, who: seq<Tid>, c: Shared)
    ensures c == NEW_SESSION.(inStore := true, phase := Announced, reports := [Online]) && Reaches(run, who, {}, ADDER, Idle, c)
  {
    run, who, c := [At({}, ADDER, AddStore, NEW_SESSION)], [], NEW_SESSION.(inStore := true, phase := Stored);
    run, who := Act(run, who, {}, ADDER, AddStore, NEW_SESSION, AddSend, c);
    run, who := Act(run, who, {}, ADDER, AddSend, c, Idle, c.(reports := [Online], phase := Announced));
    c := c.(reports := [Online], phase := Announced);
  }

  /** Announced, open, and nothing in the channel. */
  predicate Open(c: Shared)
  {
    c.lock.None? && c.phase.Announced? && !c.closing && !c.closed && c.chan == []
  }

  function Appended(c: Shared, v: Data): Shared
  {
    c.(chan := [v], appended := c.appended + [v])
  }

  /** An idle thread appends a value, up to the point where it lets go of the lock. */
  lemma Append(run: seq<State>, who: seq<Tid>, gone: set<Tid>, t: Tid, v: Data, drop: bool, c: Shared)
    returns (run': seq<State>, who': seq<Tid>)
    requires t <= HUB && Reaches(run, who, gone, t, Idle, c) && Open(c) && Starts(RoleOf(t), c, AppendLock(v, drop))
    ensures Reaches(run', who', gone, t, AppendUnlock(v, drop), Appended(c, v).(lock := Some(t)))
  {
    var held := c.(lock := Some(t));
    run', who' := Act(run, who, gone, t, Idle, c, AppendLock(v, drop), c);
    run', who' := Act(run', who', gone, t, AppendLock(v, drop), c, AppendCheck(v, drop), held);
    run', who' := Act(run', who', gone, t, AppendCheck(v, drop), held, AppendSend(v, drop), held);
    run', who' := Act(run', who', gone, t, AppendSend(v, drop), held, AppendUnlock(v, drop), Appended(held, v));
  }

  function Closed(c: Shared, t: Tid, cause: Cause): Shared
  {
    c.(closing := true, closed := true, closes := c.closes + 1, closer := Some(Closer(t, cause)))
  }

  /** The session is closed, up to the close of the channel. */
  lemma CloseChannel(run: seq<State>, who: seq<Tid>, gone: set<Tid>, t: Tid, cause: Cause, c: Shared)
    returns (run': seq<State>, who': seq<Tid>)
    requires t <= HUB && Reaches(run, who, gone, t, CloseLock(cause), c) && c.lock.None? && !c.closing && !c.closed
    ensures Reaches(run', who', gone, t, CloseDel(cause), Closed(c, t, cause).(lock := Some(t)))
  {
    var held := c.(lock := Some(t));
    run', who' := Act(run, who, gone, t, CloseLock(cause), c, CloseCheck(cause), held);
    run', who' := Act(run', who', gone, t, CloseCheck(cause), held, CloseSet(cause), held);
    run', who' := Act(run', who', gone, t, CloseSet(cause), held, CloseConn(cause), held.(closing := true));
    run', who' := Act(run', who', gone, t, CloseConn(cause), held.(closing := true), CloseChan(cause), held.(closing := true));
    run', who' := Act(run', who', gone, t, CloseChan(cause), held.(closing := true), CloseDel(cause), Closed(held, t, cause));
  }

  /** What the deletion inside a close does. */
  function Forgotten(c: Shared, t: Tid): Shared
  {
    if c.inStore then c.(inStore := false, removal := Deleted(t, true), reports := c.reports + [Offline]) else c
  }

  /** The session is removed, unless the server stops. */
  lemma Forget(run: seq<State>, who: seq<Tid>, gone: set<Tid>, t: Tid, cause: Cause, c: Shared)
    returns (run': seq<State>, who': seq<Tid>)
    requires t <= HUB && Reaches(run, who, gone, t, CloseDel(cause), c)
    ensures Reaches(run', who', gone, t, CloseUnlock(cause), if cause == ServerStop then c else Forgotten(c, t))
  {
    if cause == ServerStop {
      run', who' := Act(run, who, gone, t, CloseDel(cause), c, CloseUnlock(cause), c);
    } else {
      var c' := if c.inStore then c.(inStore := false, removal := Deleted(t, true)) else c;
      run', who' := Act(run, who, gone, t, CloseDel(cause), c, DelStore(Some(cause)), c);
      run', who' := Act(run', who', gone, t, DelStore(Some(cause)), c, DelSend(c.inStore, Some(cause)), c');
      run', who' := Act(run', who', gone, t, DelSend(c.inStore, Some(cause)), c', CloseUnlock(cause), Forgotten(c, t));
    }
  }

  /** The rest of the close. The send loop then returns, except after a kickoff. */
  lemma Finish(run: seq<State>, who: seq<Tid>, gone: set<Tid>, t: Tid, cause: Cause, c: Shared)
    returns (run': seq<State>, who': seq<Tid>)
    requires t <= HUB && Reaches(run, who, gone, t, CloseDel(cause), c)
    ensures Reaches(run', who', gone, t, if t == SEND && cause != KickedOff then Ended else Idle,
                    (if cause == ServerStop then c else Forgotten(c, t)).(lock := None))
  {
    var c' := if cause == ServerStop then c else Forgotten(c, t);
    run', who' := Forget(run, who, gone, t, cause, c);
    run', who' := Act(run', who', gone, t, CloseUnlock(cause), c', if t == SEND && cause != KickedOff then Ended else Idle,
                      c'.(lock := None));
  }

  /** The hub kicks the session off. */
  lemma Kick(run: seq<State>, who: seq<Tid>, c: Shared) returns (run': seq<State>, who': seq<Tid>, c': Shared)
    requires Reaches(run, who, {}, ADDER, Idle, c) && Open(c) && c.inStore
    ensures Reaches(run', who', {}, SEND, Idle, c')
    ensures c' == Appended(c, Kickoff).(inStore := false, removal := DroppedByKickoff)
  {
    var told := Appended(c, Kickoff);
    c' := told.(inStore := false, removal := DroppedByKickoff);
    Switch(run, who, {}, ADDER, Idle, HUB, c);
    run', who' := Append(run, who, {}, HUB, Kickoff, true, c);
    run', who' := Act(run', who', {}, HUB, AppendUnlock(Kickoff, true), told.(lock := Some(HUB)), KickDel, told);
    run', who' := Act(run', who', {}, HUB, KickDel, told, Idle, c');
    Switch(run', who', {}, HUB, Idle, SEND, c');
  }

  /** The receive loop meets an error, appends it and returns. */
  lemma Complain(run: seq<State>, who: seq<Tid>, cause: Cause, c: Shared) returns (run': seq<State>, who': seq<Tid>)
    requires Reaches(run, who, {}, ADDER, Idle, c) && Open(c) && (cause == ReadError || cause == BadRequest)
    ensures Reaches(run', who', {RECV}, SEND, Idle, Appended(c, Error(cause)))
  {
    var v, told := Error(cause), Appended(c, Error(cause));
    Switch(run, who, {}, ADDER, Idle, RECV, c);
    run', who' := Append(run, who, {}, RECV, v, false, c);
    run', who' := Act(run', who', {}, RECV, AppendUnlock(v, false), told.(lock := Some(RECV)), Ended, told);
    Switch(run', who', {}, RECV, Ended, SEND, told);
    assert {} + {RECV} == {RECV};
  }

  /** The send loop takes the only value and closes the session. */
  lemma TakeAndClose(run: seq<State>, who: seq<Tid>, gone: set<Tid>, cause: Cause, v: Data, c: Shared)
    returns (run': seq<State>, who': seq<Tid>, c': Shared)
    requires Reaches(run, who, gone, SEND, Idle, c) && c.chan == [v] && Leads(v, CloseLock(cause)) && cause != ServerStop
    requires c.lock.None? && c.phase.Announced? && !c.closing && !c.closed
    ensures IsRun(ADDER, run', who') && run'[|run'| - 1].shared == c'
    ensures c'.closed && c'.closer == Some(Closer(SEND, cause)) && c'.lock.None? && !c'.inStore
    ensures c'.reports == if c.inStore then c.reports + [Offline] else c.reports
  {
    assert c.chan[1..] == [];
    var empty := c.(chan := [], taken := c.taken + [v]);
    run', who' := Act(run, who, gone, SEND, Idle, c, CloseLock(cause), empty);
    run', who' := CloseChannel(run', who', gone, SEND, cause, empty);
    var closed := Closed(empty, SEND, cause).(lock := Some(SEND));
    run', who' := Finish(run', who', gone, SEND, cause, closed);
    c' := Forgotten(closed, SEND).(lock := None);
  }

  /** After the run the session is closed for this cause, and the leader has heard of it, unless it knows or need not. */
  ghost predicate ClosedFor(run: seq<State>, who: seq<Tid>, cause: Cause)
  {
    && IsRun(ADDER, run, who)
    && var c := run[|run| - 1].shared;
    && c.closed && c.lock.None? && c.closer.Some? && c.closer.value.cause == cause
    && c.reports == (if cause == ServerStop || cause == KickedOff then [Online] else [Online, Offline])
    && (c.inStore <==> cause == ServerStop)
  }

  lemma StopRun() returns (run: seq<State>, who: seq<Tid>)
    ensures ClosedFor(run, who, ServerStop)
  {
    var c;
    run, who, c := Announce();
    Switch(run, who, {}, ADDER, Idle, HUB, c);
    run, who := Act(run, who, {}, HUB, Idle, c, CloseLock(ServerStop), c);
    run, who := CloseChannel(run, who, {}, HUB, ServerStop, c);
    run, who := Finish(run, who, {}, HUB, ServerStop, Closed(c, HUB, ServerStop).(lock := Some(HUB)));
  }

  lemma KickoffRun() returns (run: seq<State>, who: seq<Tid>)
    ensures ClosedFor(run, who, KickedOff)
  {
    var c, c';
    run, who, c := Announce();
    run, who, c := Kick(run, who, c);
    run, who, c' := TakeAndClose(run, who, {}, KickedOff, Kickoff, c);
  }

  lemma ErrorRun(cause: Cause) returns (run: seq<State>, who: seq<Tid>)
    requires cause == ReadError || cause == BadRequest
    ensures ClosedFor(run, who, cause)
  {
    var c, c';
    run, who, c := Announce();
    run, who := Complain(run, who, cause, c);
    run, who, c' := TakeAndClose(run, who, {RECV}, cause, Error(cause), Appended(c, Error(cause)));
  }

  /**
   A session may be closed for any cause but a failed write and a failed ping: for each other cause there is a run,
   and in no run is it closed for one of these.
   */
  lemma ClosedForIff(cause: Cause)
    ensures (exists run, who :: ClosedFor(run, who, cause)) <==> cause != WriteError && cause != PingError
  {
    if run, who :| ClosedFor(run, who, cause) {
      NeverClosedForLoss(ADDER, run, who, |who|);
    }
    if cause == ServerStop {
      var run, who := StopRun();
    } else if cause == KickedOff {
      var run, who := KickoffRun();
    } else if cause == ReadError || cause == BadRequest {
      var run, who := ErrorRun(cause);
    }
  }

  /** There is a run in which a ping fails: the send loop returns, and the session stays open and known. */
  lemma StrandedRun() returns (run: seq<State>, who: seq<Tid>)
    ensures IsRun(ADDER, run, who)
    ensures var s := run[|run| - 1];
            && SEND in s.threads && s.threads[SEND] == Thread(SendLoop, Ended)
            && !s.shared.closing && s.shared.inStore && s.shared.reports == [Online] && s.shared.chan == [Error(PingError)]
  {
    var c;
    run, who, c := Announce();
    var v, told := Error(PingError), Appended(c, Error(PingError));
    Switch(run, who, {}, ADDER, Idle, SEND, c);
    run, who := Append(run, who, {}, SEND, v, false, c);
    run, who := Act(run, who, {}, SEND, AppendUnlock(v, false), told.(lock := Some(SEND)), Ended, told);
  }

  /** There is a run in which the peer closes the connection: the session is deleted and reported before it is closed. */
  lemma LeftRun() returns (run: seq<State>, who: seq<Tid>)
    ensures IsRun(ADDER, run, who)
    ensures var c := run[|run| - 1].shared; !c.closing && !c.inStore && c.reports == [Online, Offline]
  {
    var c;
    run, who, c := Announce();
    Switch(run, who, {}, ADDER, Idle, RECV, c);
    var gone := c.(inStore := false, removal := Deleted(RECV, false));
    run, who := Act(run, who, {}, RECV, Idle, c, DelStore(None), c);
    run, who := Act(run, who, {}, RECV, DelStore(None), c, DelSend(true, None), gone);
    run, who := Act(run, who, {}, RECV, DelSend(true, None), gone, Idle, gone.(reports := c.reports + [Offline]));
  }
}
