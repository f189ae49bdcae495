/**
 The life of one session on its hub (`ws/handler.go`, `ws/hstore.go`, `ws/hub.go`): any number of
 threads append to its channel, close it, delete it or kick it off, each one instruction at a time
 and in any order. A send on a closed channel and a second close panic.
 */
module Teardown {
  import opened Options

  type Tid = nat

  /** The thread that adds the session; its receive and send loops; and the hub's own threads. */
  datatype Role = Adder | RecvLoop | SendLoop | HubThread

  datatype Cause = ReadError | WriteError | PingError | BadRequest | ServerStop | KickedOff

  datatype Data = Error(cause: Cause) | Reply | Kickoff

  /** What the hub tells the leader about the session. */
  datatype Report = Online | Offline

  /** Room in the data channel. */
  const CAPACITY := 16

  /**
   Where a thread stands. `drop`: the append is part of a kickoff, which then removes the session
   from the store. `closing`: the removal is part of a close for that cause, which still holds the lock.
   */
  datatype Pc =
    | Idle
    | AddStore
    | AddSend
    | AppendLock(v: Data, drop: bool)
    | AppendCheck(v: Data, drop: bool)
    | AppendSend(v: Data, drop: bool)
    | AppendUnlock(v: Data, drop: bool)
    | KickDel
    | CloseLock(cause: Cause)
    | CloseCheck(cause: Cause)
    | CloseSet(cause: Cause)
    | CloseConn(cause: Cause)
    | CloseChan(cause: Cause)
    | CloseDel(cause: Cause)
    | DelStore(closing: Option<Cause>)
    | DelSend(found: bool, closing: Option<Cause>)
    | CloseUnlock(cause: Cause)
    | Ended  // the loop has returned

  /** How far the adding has got: not in the store, in the store, announced to the leader. */
  datatype Phase = New | Stored | Announced

  /** What took the session out of the store: a deletion, perhaps part of a close, which reports it; or a kickoff. */
  datatype Removal = NotRemoved | Deleted(t: Tid, closing: bool) | DroppedByKickoff

  /** Who closed the channel, and why. */
  datatype Closer = Closer(t: Tid, cause: Cause)

  /**
   What the threads share. History: `closes` counts the closes of the channel, `closer` made the first; `removal`
   says what took the session out of the store; `appended` and `taken` are the values that went through the channel.
   */
  datatype Shared = Shared(lock: Option<Tid>, closing: bool, closed: bool, chan: seq<Data>, inStore: bool, phase: Phase,
                           reports: seq<Report>, panicked: bool, closes: nat, closer: Option<Closer>, removal: Removal,
                           appended: seq<Data>, taken: seq<Data>)

  datatype Thread = Thread(role: Role, pc: Pc)

  datatype State = State(threads: map<Tid, Thread>, shared: Shared)

  const NEW_SESSION := Shared(None, false, false, [], false, New, [], false, 0, None, NotRemoved, [], [])

  // ----- steps -----

  /**
   What an idle thread may start. The loops run once the session is announced: the receive loop appends replies and its
   own errors, and deletes the session when the peer closes the connection; a ping may fail in the send loop. The hub
   must find the session in the store.
   */
  predicate Starts(role: Role, c: Shared, pc: Pc)
  {
    match role
    case Adder => false
    case RecvLoop =>
      c.phase.Announced? && (pc == DelStore(None) || pc == AppendLock(Reply, false) ||
                             pc == AppendLock(Error(ReadError), false) || pc == AppendLock(Error(BadRequest), false))
    case SendLoop => c.phase.Announced? && pc == AppendLock(Error(PingError), false)
    case HubThread =>
      c.inStore && (pc == AppendLock(Reply, false) || pc == AppendLock(Kickoff, true) || pc == CloseLock(ServerStop))
  }

  /** What the send loop does with a value it took from the channel; writing it may fail. */
  predicate Leads(v: Data, pc: Pc)
  {
    match v
    case Error(cause) => pc == CloseLock(cause)
    case Reply => pc == Idle || pc == AppendLock(Error(WriteError), false)
    case Kickoff => pc == CloseLock(KickedOff) || pc == AppendLock(Error(WriteError), false)
  }

  /** A loop returns when the session is closing, or closed and the channel empty. */
  predicate Returns(role: Role, c: Shared)
  {
    (role.RecvLoop? && c.phase.Announced? && c.closing) || (role.SendLoop? && c.phase.Announced? && c.closed && c.chan == [])
  }

  /** After an append: the send loop has met an error and returns, the receive loop does after a read error. */
  predicate GoesOn(role: Role, v: Data, drop: bool, pc: Pc)
  {
    if drop then pc == KickDel
    else if role.SendLoop? || (role.RecvLoop? && v == Error(ReadError)) then pc == Ended
    else pc == Idle || (role.RecvLoop? && v == Error(BadRequest) && pc == Ended)
  }

  /** One instruction of thread `t`. */
  predicate Moves(t: Tid, role: Role, c: Shared, pc: Pc, c': Shared, pc': Pc)
  {
    match pc
    case Idle =>
      || (Starts(role, c, pc') && c' == c)
      || (Returns(role, c) && c' == c && pc' == Ended)
      || (role.SendLoop? && c.phase.Announced? && c.chan != [] && Leads(c.chan[0], pc') &&
          c' == c.(chan := c.chan[1..], taken := c.taken + [c.chan[0]]))
    case AddStore => c' == c.(inStore := true, phase := Stored) && pc' == AddSend
    case AddSend => c' == c.(reports := c.reports + [Online], phase := Announced) && pc' == Idle
    case AppendLock(v, drop) => c.lock.None? && c' == c.(lock := Some(t)) && pc' == AppendCheck(v, drop)
    case AppendCheck(v, drop) => c' == c && pc' == if c.closing then AppendUnlock(v, drop) else AppendSend(v, drop)
    case AppendSend(v, drop) =>
      if c.closed then c' == c.(panicked := true) && pc' == Ended
      else
        && |c.chan| < CAPACITY && pc' == AppendUnlock(v, drop)
        && c' == c.(chan := c.chan + [v], appended := c.appended + [v])
    case AppendUnlock(v, drop) => c' == c.(lock := None) && GoesOn(role, v, drop, pc')
    case KickDel => c' == (if c.inStore then c.(inStore := false, removal := DroppedByKickoff) else c) && pc' == Idle
    case CloseLock(cause) => c.lock.None? && c' == c.(lock := Some(t)) && pc' == CloseCheck(cause)
    case CloseCheck(cause) => c' == c && pc' == if c.closing then CloseUnlock(cause) else CloseSet(cause)
    case CloseSet(cause) => c' == c.(closing := true) && pc' == CloseConn(cause)
    case CloseConn(cause) => c' == c && pc' == CloseChan(cause)
    case CloseChan(cause) =>
      if c.closed then c' == c.(panicked := true) && pc' == Ended
      else c' == c.(closed := true, closes := c.closes + 1, closer := Some(Closer(t, cause))) && pc' == CloseDel(cause)
    case CloseDel(cause) => c' == c && pc' == if cause == ServerStop then CloseUnlock(cause) else DelStore(Some(cause))
    case DelStore(closing) =>
      && c' == (if c.inStore then c.(inStore := false, removal := Deleted(t, closing.Some?)) else c)
      && pc' == DelSend(c.inStore, closing)
    case DelSend(found, closing) =>
      && c' == (if found then c.(reports := c.reports + [Offline]) else c)
      && pc' == if closing.Some? then CloseUnlock(closing.value) else Idle
    case CloseUnlock(cause) => c' == c.(lock := None) && pc' == if role.SendLoop? && cause != KickedOff then Ended else Idle
    case Ended => false
  }

  /** A session has one send loop. */
  predicate OneSendLoop(threads: map<Tid, Thread>)
  {
    forall t, u | t in threads && u in threads && threads[t].role.SendLoop? && threads[u].role.SendLoop? :: t == u
  }

  predicate Init(s: State, adder: Tid)
  {
    && s.shared == NEW_SESSION && adder in s.threads && s.threads[adder] == Thread(Adder, AddStore)
    && (forall t | t in s.threads && t != adder :: s.threads[t].pc.Idle? && !s.threads[t].role.Adder?)
    && OneSendLoop(s.threads)
  }

  predicate Step(s: State, t: Tid, s': State)
  {
    && t in s.threads && t in s'.threads
    && s'.threads == s.threads[t := Thread(s.threads[t].role, s'.threads[t].pc)]
    && Moves(t, s.threads[t].role, s.shared, s.threads[t].pc, s'.shared, s'.threads[t].pc)
  }

  ghost predicate IsRun(adder: Tid, run: seq<State>, who: seq<Tid>)
  {
    && |run| == |who| + 1 && Init(run[0], adder)
    && forall n :: 0 <= n < |who| ==> Step(run[n], who[n], run[n + 1])
  }

  // ----- invariant -----

  /** The thread is between taking and releasing the session's lock. */
  predicate Holds(pc: Pc)
  {
    match pc
    case Idle => false
    case AddStore => false
    case AddSend => false
    case AppendLock(_, _) => false
    case KickDel => false
    case CloseLock(_) => false
    case DelStore(closing) => closing.Some?
    case DelSend(_, closing) => closing.Some?
    case Ended => false
    case _ => true
  }

  /** The thread's next instruction sends to the channel or closes it. */
  predicate UsesChannel(pc: Pc)
  {
    pc.AppendSend? || pc.CloseChan?
  }

  /** The thread may still delete the session and report it offline. */
  predicate MayReport(pc: Pc)
  {
    pc.DelStore? || pc.DelSend? || (IsClosing(pc) && pc.cause != ServerStop)
  }

  /** The thread is closing the session, up to its removal. */
  predicate IsClosing(pc: Pc)
  {
    pc.CloseLock? || pc.CloseCheck? || pc.CloseSet? || pc.CloseConn? || pc.CloseChan? || pc.CloseDel?
  }

  /** An error that the send loop met. */
  predicate IsLost(v: Data)
  {
    v == Error(WriteError) || v == Error(PingError)
  }

  /** The thread is to append `v`. */
  predicate Appending(pc: Pc, v: Data)
  {
    (pc.AppendLock? || pc.AppendCheck? || pc.AppendSend?) && pc.v == v
  }

  /** The channel: closed once, under the lock, and nothing is lost in it. */
  predicate ChannelOk(c: Shared)
  {
    && !c.panicked && c.appended == c.taken + c.chan
    && (c.closed ==> c.closing) && c.closes == (if c.closed then 1 else 0) && (c.closed <==> c.closer.Some?)
    && (c.closing && !c.closed ==> c.lock.Some?)
  }

  /** The store and the reports. */
  predicate StoreOk(c: Shared)
  {
    && (c.inStore <==> !c.phase.New? && c.removal.NotRemoved?)
    && (c.phase.New? ==> c.removal.NotRemoved? && c.closer.None?)
    && (!c.phase.Announced? ==> c.reports == [] && !c.removal.Deleted?)
    && (c.phase.Announced? ==> c.reports == [Online] || (c.reports == [Online, Offline] && c.removal.Deleted?))
  }

  /** Why the session was closed. */
  predicate CauseOk(c: Shared)
  {
    && (c.removal.Deleted? && c.removal.closing ==> c.closer.Some? && c.closer.value.cause != ServerStop)
    && (c.closer.Some? ==> !IsLost(Error(c.closer.value.cause)))
  }

  predicate SharedOk(c: Shared)
  {
    ChannelOk(c) && StoreOk(c) && CauseOk(c)
  }

  ghost predicate ThreadOk(t: Tid, adder: Tid, role: Role, pc: Pc, c: Shared)
  {
    && (Holds(pc) <==> c.lock == Some(t)) && Closes(t, pc, c) && Adds(t, adder, pc, c) && Reports(t, pc, c)
    && Removes(t, pc, c) && Tells(pc) && Obeys(role, pc) && Errs(role, pc, c)
  }

  /** Some error of the send loop was appended. */
  ghost predicate LostAny(c: Shared)
  {
    Error(WriteError) in c.appended || Error(PingError) in c.appended
  }

  /** Only the send loop closes a session that the server does not stop, and it appends only its own errors. */
  predicate Obeys(role: Role, pc: Pc)
  {
    && (Appending(pc, Error(WriteError)) || Appending(pc, Error(PingError)) ==> role.SendLoop?)
    && (IsClosing(pc) && pc.cause != ServerStop ==> role.SendLoop? && !IsLost(Error(pc.cause)))
    && ((pc.AppendLock? || pc.AppendCheck? || pc.AppendSend? || pc.AppendUnlock?) && role.SendLoop? ==> IsLost(pc.v) && !pc.drop)
  }

  /** What was appended is in the channel; the send loop appends an error only to return, and returns early only after one. */
  ghost predicate Errs(role: Role, pc: Pc, c: Shared)
  {
    && (pc.AppendUnlock? && !c.closing ==> pc.v in c.appended)
    && (role.SendLoop? && LostAny(c) ==> pc.AppendUnlock? || pc.Ended?)
    && (role.SendLoop? && pc.Ended? && !c.closing ==> LostAny(c))
  }

  /** A session is told of its kickoff only to be removed. */
  predicate Tells(pc: Pc)
  {
    Appending(pc, Kickoff) ==> pc.drop
  }

  predicate Closes(t: Tid, pc: Pc, c: Shared)
  {
    && (pc.AppendSend? || pc.CloseSet? ==> !c.closing)
    && (pc.CloseConn? || pc.CloseChan? ==> c.closing && !c.closed)
    && (c.closing && !c.closed && c.lock == Some(t) ==> pc.CloseConn? || pc.CloseChan?)
    && (Holds(pc) && (pc.CloseDel? || pc.DelStore? || pc.DelSend? || pc.CloseUnlock?) ==> c.closing)
  }

  predicate Adds(t: Tid, adder: Tid, pc: Pc, c: Shared)
  {
    && (!pc.Idle? && !pc.AddStore? ==> !c.phase.New?)
    && (MayReport(pc) ==> c.phase.Announced?)
    && (pc.AddStore? ==> t == adder && c.phase.New?)
    && (pc.AddSend? ==> t == adder && c.phase.Stored?)
  }

  /** A deleter reports what it removed. */
  predicate Reports(t: Tid, pc: Pc, c: Shared)
  {
    && (pc.DelSend? && pc.found ==> c.removal == Deleted(t, pc.closing.Some?) && c.reports == [Online])
    && (c.removal.Deleted? && c.removal.t == t && Offline !in c.reports ==> pc.DelSend? && pc.found)
  }

  /** A closer removes the session before it lets go of the lock. */
  predicate Removes(t: Tid, pc: Pc, c: Shared)
  {
    && (pc.CloseDel? ==> c.closer == Some(Closer(t, pc.cause)))
    && (pc.DelStore? && pc.closing.Some? ==> c.closer == Some(Closer(t, pc.closing.value)) && pc.closing.value != ServerStop)
    && (c.closer.Some? && c.closer.value.t == t && c.closer.value.cause != ServerStop && c.inStore ==>
          pc == CloseDel(c.closer.value.cause) || pc == DelStore(Some(c.closer.value.cause)))
  }

  ghost predicate Inv(s: State, adder: Tid)
  {
    && SharedOk(s.shared) && OneSendLoop(s.threads)
    && (forall t | t in s.threads :: ThreadOk(t, adder, s.threads[t].role, s.threads[t].pc, s.shared))
    && (s.shared.closer.Some? ==> s.shared.closer.value.t in s.threads)
    && (s.shared.removal.Deleted? ==> s.shared.removal.t in s.threads)
  }

  lemma IdleTakesNoLock(t: Tid, role: Role, c: Shared, c': Shared, pc': Pc)
    requires Moves(t, role, c, Idle, c', pc')
    ensures !Holds(pc') && c'.lock == c.lock
  {
  }

  lemma MoveKeepsLock(t: Tid, role: Role, c: Shared, pc: Pc, c': Shared, pc': Pc)
    requires (Holds(pc) <==> c.lock == Some(t)) && Closes(t, pc, c) && (c.closed ==> c.closing) && Moves(t, role, c, pc, c', pc')
    ensures Holds(pc') <==> c'.lock == Some(t)
  {
    if pc.Idle? {
      IdleTakesNoLock(t, role, c, c', pc');
    } else if Holds(pc) {
      assert c'.lock == if Holds(pc') then Some(t) else None;
    }
  }

  lemma MoveKeepsCloses(t: Tid, role: Role, c: Shared, pc: Pc, c': Shared, pc': Pc)
    requires (Holds(pc) <==> c.lock == Some(t)) && Closes(t, pc, c) && Moves(t, role, c, pc, c', pc')
    requires (c.closed ==> c.closing) && (c.closing && !c.closed ==> c.lock.Some?)
    ensures Closes(t, pc', c')
  {
    if pc.Idle? {
      IdleTakesNoLock(t, role, c, c', pc');
      IdleBegins(t, role, c, c', pc');
    }
  }

  lemma IdleBegins(t: Tid, role: Role, c: Shared, c': Shared, pc': Pc)
    requires Moves(t, role, c, Idle, c', pc')
    ensures c' == c.(chan := c'.chan, taken := c'.taken)
    ensures pc'.Idle? || pc'.Ended? || pc'.AppendLock? || pc'.CloseLock? || pc' == DelStore(None)
    ensures !pc'.Idle? ==> c.phase.Announced? || c.inStore
    ensures MayReport(pc') ==> c.phase.Announced?
  {
  }

  lemma MoveKeepsReports(t: Tid, role: Role, c: Shared, pc: Pc, c': Shared, pc': Pc)
    requires SharedOk(c) && Reports(t, pc, c) && (MayReport(pc) ==> c.phase.Announced?) && Moves(t, role, c, pc, c', pc')
    ensures Reports(t, pc', c')
  {
    if pc.Idle? {
      IdleBegins(t, role, c, c', pc');
    }
  }

  lemma MoveKeepsAdds(t: Tid, adder: Tid, role: Role, c: Shared, pc: Pc, c': Shared, pc': Pc)
    requires (c.inStore ==> !c.phase.New?) && Adds(t, adder, pc, c) && Moves(t, role, c, pc, c', pc')
    ensures Adds(t, adder, pc', c')
  {
    if pc.Idle? {
      IdleBegins(t, role, c, c', pc');
    }
  }

  lemma MoveKeepsRemoves(t: Tid, role: Role, c: Shared, pc: Pc, c': Shared, pc': Pc)
    requires SharedOk(c) && Closes(t, pc, c) && Removes(t, pc, c) && Moves(t, role, c, pc, c', pc')
    requires pc.AddStore? ==> c.phase.New?
    ensures Removes(t, pc', c')
  {
    if pc.Idle? {
      IdleBegins(t, role, c, c', pc');
    }
  }

  lemma MoveKeepsTells(t: Tid, role: Role, c: Shared, pc: Pc, c': Shared, pc': Pc)
    requires Tells(pc) && Moves(t, role, c, pc, c', pc')
    ensures Tells(pc')
  {
    if !pc.Idle? {
      assert Appending(pc', Kickoff) ==> Appending(pc, Kickoff);
    }
  }

  lemma MoveKeepsChannel(t: Tid, role: Role, c: Shared, pc: Pc, c': Shared, pc': Pc)
    requires ChannelOk(c) && (Holds(pc) <==> c.lock == Some(t)) && Closes(t, pc, c) && Moves(t, role, c, pc, c', pc')
    ensures ChannelOk(c')
  {
    if pc.Idle? {
      IdleBegins(t, role, c, c', pc');
    }
  }

  lemma MoveKeepsStore(t: Tid, adder: Tid, role: Role, c: Shared, pc: Pc, c': Shared, pc': Pc)
    requires StoreOk(c) && Adds(t, adder, pc, c) && Reports(t, pc, c) && Moves(t, role, c, pc, c', pc')
    ensures StoreOk(c')
  {
    assert [] + [Online] == [Online] && [Online] + [Offline] == [Online, Offline];
    if pc.Idle? {
      IdleBegins(t, role, c, c', pc');
    }
  }

  lemma MoveKeepsCause(t: Tid, role: Role, c: Shared, pc: Pc, c': Shared, pc': Pc)
    requires ChannelOk(c) && CauseOk(c) && Closes(t, pc, c) && Removes(t, pc, c) && Obeys(role, pc)
    requires Moves(t, role, c, pc, c', pc')
    ensures CauseOk(c')
  {
    if pc.Idle? {
      IdleBegins(t, role, c, c', pc');
    }
  }

  lemma MoveKeepsShared(t: Tid, adder: Tid, role: Role, c: Shared, pc: Pc, c': Shared, pc': Pc)
    requires SharedOk(c) && ThreadOk(t, adder, role, pc, c) && Moves(t, role, c, pc, c', pc')
    ensures SharedOk(c')
  {
    MoveKeepsChannel(t, role, c, pc, c', pc');
    MoveKeepsStore(t, adder, role, c, pc, c', pc');
    MoveKeepsCause(t, role, c, pc, c', pc');
  }

  lemma Took(c: Shared)
    requires c.appended == c.taken + c.chan && c.chan != []
    ensures c.chan[0] in c.appended
  {
    assert c.appended[|c.taken|] == c.chan[0];
  }

  lemma IdleKeepsObeys(t: Tid, role: Role, c: Shared, c': Shared, pc': Pc)
    requires c.appended == c.taken + c.chan && Errs(role, Idle, c) && Moves(t, role, c, Idle, c', pc')
    ensures Obeys(role, pc')
  {
    if c.chan != [] {
      Took(c);
      assert role.SendLoop? ==> !IsLost(c.chan[0]);
    }
  }

  lemma MoveKeepsObeys(t: Tid, role: Role, c: Shared, pc: Pc, c': Shared, pc': Pc)
    requires c.appended == c.taken + c.chan && Errs(role, pc, c) && Obeys(role, pc) && Moves(t, role, c, pc, c', pc')
    ensures Obeys(role, pc')
  {
    if pc.Idle? {
      IdleKeepsObeys(t, role, c, c', pc');
    }
  }

  lemma MoveKeepsErrs(t: Tid, role: Role, c: Shared, pc: Pc, c': Shared, pc': Pc)
    requires (c.closed ==> c.closing) && (Holds(pc) <==> c.lock == Some(t)) && Closes(t, pc, c)
    requires Obeys(role, pc) && Errs(role, pc, c) && Moves(t, role, c, pc, c', pc')
    ensures Errs(role, pc', c')
  {
    if pc.Idle? {
      IdleBegins(t, role, c, c', pc');
    }
  }

  /** What a move of thread `t` leaves to another thread. */
  lemma MoveKeepsOther(t: Tid, u: Tid, adder: Tid, role: Role, c: Shared, pc: Pc, c': Shared, pc': Pc, other: Role, opc: Pc)
    requires t != u && SharedOk(c) && ThreadOk(t, adder, role, pc, c) && ThreadOk(u, adder, other, opc, c)
    requires Moves(t, role, c, pc, c', pc') && !(role.SendLoop? && other.SendLoop?)
    ensures ThreadOk(u, adder, other, opc, c')
  {
    OtherErrs(t, role, c, pc, c', pc', other, opc);
    OtherCloses(t, u, role, c, pc, c', pc', opc);
    OtherReports(t, u, adder, role, c, pc, c', pc', opc);
    OtherRemoves(t, u, role, c, pc, c', pc', opc);
  }

  lemma OtherErrs(t: Tid, role: Role, c: Shared, pc: Pc, c': Shared, pc': Pc, other: Role, opc: Pc)
    requires Obeys(role, pc) && Errs(other, opc, c) && Moves(t, role, c, pc, c', pc') && !(role.SendLoop? && other.SendLoop?)
    ensures Errs(other, opc, c')
  {
    assert other.SendLoop? && pc.AppendSend? ==> !IsLost(pc.v);
  }

  lemma OtherCloses(t: Tid, u: Tid, role: Role, c: Shared, pc: Pc, c': Shared, pc': Pc, opc: Pc)
    requires t != u && ChannelOk(c) && (Holds(pc) <==> c.lock == Some(t)) && Closes(t, pc, c) && Moves(t, role, c, pc, c', pc')
    requires (Holds(opc) <==> c.lock == Some(u)) && Closes(u, opc, c)
    ensures (Holds(opc) <==> c'.lock == Some(u)) && Closes(u, opc, c')
  {
    if pc.Idle? {
      IdleBegins(t, role, c, c', pc');
    }
  }

  lemma OtherReports(t: Tid, u: Tid, adder: Tid, role: Role, c: Shared, pc: Pc, c': Shared, pc': Pc, opc: Pc)
    requires t != u && StoreOk(c) && Adds(t, adder, pc, c) && Reports(t, pc, c) && Moves(t, role, c, pc, c', pc')
    requires Adds(u, adder, opc, c) && Reports(u, opc, c)
    ensures Adds(u, adder, opc, c') && Reports(u, opc, c')
  {
    if pc.Idle? {
      IdleBegins(t, role, c, c', pc');
    }
  }

  lemma OtherRemoves(t: Tid, u: Tid, role: Role, c: Shared, pc: Pc, c': Shared, pc': Pc, opc: Pc)
    requires t != u && ChannelOk(c) && StoreOk(c) && (pc.AddStore? ==> c.phase.New?) && Closes(t, pc, c)
    requires Moves(t, role, c, pc, c', pc') && Removes(u, opc, c)
    ensures Removes(u, opc, c')
  {
    if pc.Idle? {
      IdleBegins(t, role, c, c', pc');
    }
  }

  lemma MoveKeepsOk(t: Tid, adder: Tid, role: Role, c: Shared, pc: Pc, c': Shared, pc': Pc)
    requires SharedOk(c) && ThreadOk(t, adder, role, pc, c) && Moves(t, role, c, pc, c', pc')
    ensures ThreadOk(t, adder, role, pc', c')
  {
    MoveKeepsAdds(t, adder, role, c, pc, c', pc');
    MoveKeepsReports(t, role, c, pc, c', pc');
    MoveKeepsRemoves(t, role, c, pc, c', pc');
    MoveKeepsCloses(t, role, c, pc, c', pc');
    MoveKeepsTells(t, role, c, pc, c', pc');
    MoveKeepsObeys(t, role, c, pc, c', pc');
    MoveKeepsErrs(t, role, c, pc, c', pc');
    MoveKeepsLock(t, role, c, pc, c', pc');
  }

  lemma StepKeepsInv(s: State, t: Tid, s': State, adder: Tid)
    requires Inv(s, adder) && Step(s, t, s')
    ensures Inv(s', adder)
  {
    var role, pc, pc' := s.threads[t].role, s.threads[t].pc, s'.threads[t].pc;
    MoveKeepsShared(t, adder, role, s.shared, pc, s'.shared, pc');
    MoveKeepsOk(t, adder, role, s.shared, pc, s'.shared, pc');
    forall u | u in s'.threads && u != t ensures ThreadOk(u, adder, s'.threads[u].role, s'.threads[u].pc, s'.shared) {
      MoveKeepsOther(t, u, adder, role, s.shared, pc, s'.shared, pc', s.threads[u].role, s.threads[u].pc);
    }
  }

  lemma InitInv(s: State, adder: Tid)
    requires Init(s, adder)
    ensures Inv(s, adder)
  {
  }

  lemma {:induction false} RunKeepsInv(adder: Tid, run: seq<State>, who: seq<Tid>, n: nat)
    requires IsRun(adder, run, who) && n <= |who|
    ensures Inv(run[n], adder)
  {
    if n == 0 {
      InitInv(run[0], adder);
    } else {
      RunKeepsInv(adder, run, who, n - 1);
      assert Step(run[n - 1], who[n - 1], run[n]);
      StepKeepsInv(run[n - 1], who[n - 1], run[n], adder);
    }
  }

  /**
   Under every interleaving: no send meets a closed channel and none is closed twice; values leave the channel in the
   order they were appended; the leader hears at most one online and, after it, at most one offline; once the loops
   run it has heard the online exactly once; and the session is in the store from when it is added until it is removed.
   */
  lemma CleanTeardown(adder: Tid, run: seq<State>, who: seq<Tid>, n: nat)
    requires IsRun(adder, run, who) && n <= |who|
    ensures var c := run[n].shared;
            && !c.panicked && c.closes <= 1 && c.appended == c.taken + c.chan
            && (forall t | t in run[n].threads && UsesChannel(run[n].threads[t].pc) :: !c.closed)
            && (c.reports == [] || c.reports == [Online] || c.reports == [Online, Offline])
            && (c.phase.Announced? <==> Online in c.reports)
            && (c.inStore <==> !c.phase.New? && c.removal.NotRemoved?)
  {
    RunKeepsInv(adder, run, who, n);
    var s := run[n];
    forall t | t in s.threads && UsesChannel(s.threads[t].pc) ensures !s.shared.closed {
      assert ThreadOk(t, adder, s.threads[t].role, s.threads[t].pc, s.shared);
    }
  }

  /** An offline is reported only after a deletion found the session in the store, and the session never returns to it. */
  lemma OfflineMeansDeleted(adder: Tid, run: seq<State>, who: seq<Tid>, n: nat)
    requires IsRun(adder, run, who) && n <= |who| && Offline in run[n].shared.reports
    ensures !run[n].shared.inStore && run[n].shared.removal.Deleted?
  {
    RunKeepsInv(adder, run, who, n);
  }

  /** The deletion has reported the session offline, or its next instruction does. */
  ghost predicate IsReported(s: State)
  {
    || Offline in s.shared.reports
    || (s.shared.removal.Deleted? && s.shared.removal.t in s.threads &&
        s.threads[s.shared.removal.t].pc.DelSend? && s.threads[s.shared.removal.t].pc.found)
  }

  /**
   Under every interleaving: once the channel was closed for any cause but the stop of the server, and the closer has
   let go of the lock, the session is out of the store; and either a kickoff took it out, or the leader has heard the
   offline or is just told. After the stop of the server the close itself deletes and reports nothing. A close that
   has begun is finished before the lock is free again.
   */
  lemma CloseRemoves(adder: Tid, run: seq<State>, who: seq<Tid>, n: nat)
    requires IsRun(adder, run, who) && n <= |who|
    ensures var c := run[n].shared;
            && (c.closer.Some? && c.closer.value.cause != ServerStop && c.lock != Some(c.closer.value.t) ==>
                  !c.inStore && (c.removal.DroppedByKickoff? || IsReported(run[n])))
            && (c.closer.Some? && c.closer.value.cause == ServerStop ==> !(c.removal.Deleted? && c.removal.closing))
            && (c.closing && c.lock.None? ==> c.closed)
  {
    RunKeepsInv(adder, run, who, n);
    var s := run[n];
    var c := s.shared;
    if c.closer.Some? {
      assert ThreadOk(c.closer.value.t, adder, s.threads[c.closer.value.t].role, s.threads[c.closer.value.t].pc, c);
    }
    if c.removal.Deleted? {
      assert ThreadOk(c.removal.t, adder, s.threads[c.removal.t].role, s.threads[c.removal.t].pc, c);
    }
  }

  // ----- what is begun is carried out -----

  /** The thread is to remove the session, because it was kicked off or its peer closed the connection. */
  predicate Dropping(pc: Pc)
  {
    pc.KickDel? || pc.DelStore? || ((pc.AppendLock? || pc.AppendCheck? || pc.AppendSend? || pc.AppendUnlock?) && pc.drop)
  }

  /** The thread is to close the session, or to say that writing failed. */
  predicate Ending(pc: Pc)
  {
    pc.CloseLock? || pc.CloseCheck? || pc.CloseSet? || Appending(pc, Error(WriteError))
  }

  /** From `i` to `j`, `v` was appended to the channel. */
  ghost predicate AppendedBetween(run: seq<State>, i: nat, j: nat, v: Data)
    requires j < |run|
  {
    exists k :: i < k <= j && run[k].shared.appended == run[k - 1].shared.appended + [v]
  }

  lemma MoveCarriesOn(t: Tid, adder: Tid, role: Role, c: Shared, pc: Pc, c': Shared, pc': Pc, v: Data)
    requires SharedOk(c) && ThreadOk(t, adder, role, pc, c) && Moves(t, role, c, pc, c', pc')
    ensures Appending(pc, v) ==> Appending(pc', v) || c'.closing || c'.appended == c.appended + [v]
    ensures Dropping(pc) ==> Dropping(pc') || !c'.inStore
    ensures Ending(pc) ==> Ending(pc') || c'.closing || c'.appended == c.appended + [Error(WriteError)]
    ensures c.closing ==> c'.closing
    ensures !c.phase.New? && !c.inStore ==> !c'.inStore
    ensures !c.phase.New? ==> !c'.phase.New?
  {
  }

  lemma StepCarriesOn(adder: Tid, run: seq<State>, who: seq<Tid>, n: nat, t: Tid, v: Data)
    requires IsRun(adder, run, who) && 0 < n <= |who| && t in run[n - 1].threads
    ensures t in run[n].threads
    ensures var c, c', pc, pc' := run[n - 1].shared, run[n].shared, run[n - 1].threads[t].pc, run[n].threads[t].pc;
            && (Appending(pc, v) ==> Appending(pc', v) || c'.closing || c'.appended == c.appended + [v])
            && (Dropping(pc) ==> Dropping(pc') || !c'.inStore)
            && (Ending(pc) ==> Ending(pc') || c'.closing || c'.appended == c.appended + [Error(WriteError)])
            && (c.closing ==> c'.closing)
            && (!c.phase.New? && !c.inStore ==> !c'.inStore) && (!c.phase.New? ==> !c'.phase.New?)
  {
    RunKeepsInv(adder, run, who, n - 1);
    var s, s', u := run[n - 1], run[n], who[n - 1];
    assert Step(s, u, s');
    MoveCarriesOn(u, adder, s.threads[u].role, s.shared, s.threads[u].pc, s'.shared, s'.threads[u].pc, v);
  }

  /** An append that was begun is carried out, unless the session is closing. */
  lemma {:induction false} AppendDelivers(adder: Tid, run: seq<State>, who: seq<Tid>, i: nat, j: nat, t: Tid, v: Data)
    requires IsRun(adder, run, who) && i <= j <= |who| && t in run[i].threads && Appending(run[i].threads[t].pc, v)
    ensures t in run[j].threads
    ensures Appending(run[j].threads[t].pc, v) || run[j].shared.closing || AppendedBetween(run, i, j, v)
  {
    if i < j {
      AppendDelivers(adder, run, who, i, j - 1, t, v);
      StepCarriesOn(adder, run, who, j, t, v);
    }
  }

  /** A thread that tells the session of a kickoff, or is to delete it, takes it out of the store for good. */
  lemma {:induction false} RemovalForgets(adder: Tid, run: seq<State>, who: seq<Tid>, i: nat, j: nat, t: Tid)
    requires IsRun(adder, run, who) && i <= j <= |who| && t in run[i].threads
    requires Appending(run[i].threads[t].pc, Kickoff) || Dropping(run[i].threads[t].pc)
    ensures t in run[j].threads && !run[j].shared.phase.New?
    ensures Dropping(run[j].threads[t].pc) || !run[j].shared.inStore
  {
    if i == j {
      RunKeepsInv(adder, run, who, i);
    } else {
      RemovalForgets(adder, run, who, i, j - 1, t);
      StepCarriesOn(adder, run, who, j, t, Reply);
    }
  }

  lemma {:induction false} EndingCloses(adder: Tid, run: seq<State>, who: seq<Tid>, i: nat, j: nat, t: Tid)
    requires IsRun(adder, run, who) && i <= j <= |who| && t in run[i].threads && Ending(run[i].threads[t].pc)
    ensures t in run[j].threads
    ensures Ending(run[j].threads[t].pc) || run[j].shared.closing || AppendedBetween(run, i, j, Error(WriteError))
  {
    if i < j {
      EndingCloses(adder, run, who, i, j - 1, t);
      StepCarriesOn(adder, run, who, j, t, Reply);
    }
  }

  /**
   Once an error or a kickoff was taken from the channel, the thread that took it closes the session before it does
   anything else, or appends the error that writing the kickoff met.
   */
  lemma ErrorsClose(adder: Tid, run: seq<State>, who: seq<Tid>, i: nat, j: nat)
    requires IsRun(adder, run, who) && i < j <= |who|
    requires |run[i + 1].shared.taken| > |run[i].shared.taken| && run[i].shared.chan != [] && !run[i].shared.chan[0].Reply?
    ensures who[i] in run[j].threads
    ensures Ending(run[j].threads[who[i]].pc) || run[j].shared.closing || AppendedBetween(run, i + 1, j, Error(WriteError))
  {
    assert Step(run[i], who[i], run[i + 1]);
    EndingCloses(adder, run, who, i + 1, j, who[i]);
  }

  // ----- errors of the send loop -----

  /** Nothing is taken from the channel any more, and only the stop of the server still closes the session. */
  ghost predicate Stranded(s: State, t: Tid, taken: seq<Data>)
  {
    && t in s.threads && s.threads[t] == Thread(SendLoop, Ended) && s.shared.taken == taken
    && (s.shared.closer.Some? ==> s.shared.closer.value.cause == ServerStop)
  }

  lemma StaysStranded(s: State, u: Tid, s': State, adder: Tid, t: Tid, taken: seq<Data>)
    requires Inv(s, adder) && Step(s, u, s') && Stranded(s, t, taken)
    ensures Stranded(s', t, taken)
  {
    assert ThreadOk(u, adder, s.threads[u].role, s.threads[u].pc, s.shared);
  }

  /**
   In every run: a send loop that returned while the session was open did so because a write or a ping failed. From
   then on nothing is taken from the channel, not even that error, and the session is closed only if the server stops.
   */
  lemma {:induction false} FailedWriteStrands(adder: Tid, run: seq<State>, who: seq<Tid>, i: nat, j: nat, t: Tid)
    requires IsRun(adder, run, who) && i <= j <= |who| && t in run[i].threads
    requires run[i].threads[t] == Thread(SendLoop, Ended) && !run[i].shared.closing
    ensures Error(WriteError) in run[i].shared.appended || Error(PingError) in run[i].shared.appended
    ensures Stranded(run[j], t, run[i].shared.taken)
  {
    RunKeepsInv(adder, run, who, i);
    assert ThreadOk(t, adder, SendLoop, Ended, run[i].shared);
    if i < j {
      FailedWriteStrands(adder, run, who, i, j - 1, t);
      RunKeepsInv(adder, run, who, j - 1);
      assert Step(run[j - 1], who[j - 1], run[j]);
      StaysStranded(run[j - 1], who[j - 1], run[j], adder, t, run[i].shared.taken);
    }
  }

  /** No session is ever closed because a write or a ping failed. */
  lemma NeverClosedForLoss(adder: Tid, run: seq<State>, who: seq<Tid>, n: nat)
    requires IsRun(adder, run, who) && n <= |who| && run[n].shared.closer.Some?
    ensures run[n].shared.closer.value.cause != WriteError && run[n].shared.closer.value.cause != PingError
  {
    RunKeepsInv(adder, run, who, n);
  }
}
