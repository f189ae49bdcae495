/**
 The consume loop (`cluster/eventstore.go`) over the event store and the head cache. Every call into
 Kafka or MySQL is one step of the ingestion machine, and so is everything that happens meanwhile.
 So what holds over the machine's runs holds here.
 */
module Consumer {
  import opened EventTables
  import opened HeadCache
  import opened FlowControl
  import opened Ingest
  import opened ExactlyOnce
  import opened IngestRuns
  import opened IngestProgress
  import Always = IngestAlways
  import Store = EventStore

  /** What the rest of the system does while the consumer waits. */
  datatype Meanwhile =
    | Pass(elapsed: nat)                             // time passes
    | Produce(msg: Message)                          // a message is appended to the topic
    | Sweep(commit: Commit)                          // the delete loop
    | MarkRow(uid: Uid, seqNo: int, commit: Commit)  // a client marks an event as read
    | Flush                                          // the send loop
    | FallBack(position: nat)                        // the reader goes back, at most to the committed offset

  /**
   How the next foreign call ends, and what happens before: whether the process dies first, whether the
   context is cancelled, whether Kafka reports success, what becomes of a database commit, and whether
   the broker stores a committed offset.
   */
  datatype Call = Call(before: seq<Meanwhile>, dies: bool, cancelled: bool, ok: bool, commit: Commit, stored: bool)

  /** How a loop ends. */
  datatype Exit = Done | Cancelled | Died | Panics

  /** A loop stops before its calls run out only when it is done, is cancelled, dies or panics. */
  predicate Stopped(calls: seq<Call>, i: nat, j: nat, exit: Exit)
    requires i <= j <= |calls|
  {
    match exit
    case Cancelled => j == |calls| || (i < j && calls[j - 1].cancelled)
    case Died => i < j && calls[j - 1].dies
    case _ => true
  }

  /** Since position `from` of the run, a save of offset `o` succeeded, and the heads it reported were put. */
  ghost predicate SavedAndPut(w: nat, run: seq<State>, from: nat, o: Offset)
  {
    exists i, m ::
      && 0 < from <= i < |run| && SucceedsAt(w, run, i, m) && run[i - 1].phase.offset == o
      && (m == map[] || PutBetween(run, i, |run| - 1, m))
  }

  /** Where saving a message ends. */
  predicate EndsIn(exit: Exit, saving: Phase, phase: Phase)
    requires saving.Saving?
  {
    match exit
    case Cancelled => phase in {saving, Committing(saving.offset)}
    case Panics => phase == Panicked(DuplicateKeyPanic)
    case _ => phase == Idle
  }

  /** A bound on the delay of attempts may be raised. */
  lemma LaterRun(c: Config, w: nat, more: nat, run: seq<State>)
    requires IsRun(c, w, run) && w <= more
    ensures IsRun(c, more, run)
  {
    forall n: nat | n + 1 < |run| ensures StepAt(c, more, run, n) {
      assert StepAt(c, w, run, n);
      LaterStep(c, w, more, run[n], run[n + 1]);
    }
  }

  lemma LaterStep(c: Config, w: nat, more: nat, s: State, s': State)
    requires Step(c, w, s, s') && w <= more
    ensures Step(c, more, s, s')
  {
    if commit :| Attempt(w, s, s', commit) {
      assert Attempt(more, s, s', commit);
    }
  }

  class Consumer {
    const conf: Config
    const es: Store.EventStore
    const cache: HeadCache
    var log: seq<Message>
    var clock: Instant
    var committed: nat
    var position: nat
    ghost var run: seq<State>
    ghost var late: nat

    ghost function Now(): State
      reads this
      requires run != []
    {
      run[|run| - 1]
    }

    /**
     The fields and the two stores are the last state of a run of the machine. In that run every attempt
     to save was made at most `late` after its message passed the filter.
     */
    ghost predicate Valid()
      reads this, es, cache
    {
      && ValidConfig(conf) && IsRun(conf, late, run)
      && Now().log == log && Now().clock == clock && Now().committed == committed && Now().position == position
      && Now().tables == es.Contents() && Now().flow.cache == cache.kv && !cache.sending
    }

    constructor (conf: Config, clock: Instant)
      requires ValidConfig(conf)
      ensures Valid() && this.conf == conf && Now().phase == Idle && late == 0
    {
      this.conf, this.clock := conf, clock;
      es := new Store.EventStore();
      cache := new HeadCache();
      log, committed, position := [], 0, 0;
      run := [State([], clock, 0, 0, Idle, EMPTY, START, EMPTY, [], {}, 0, {})];
      late := 0;
    }

    ghost method Advance(next: State)
      requires IsRun(conf, late, run) && Step(conf, late, Now(), next)
      modifies `run
      ensures run == old(run) + [next] && IsRun(conf, late, run)
    {
      ExtendedRun(conf, late, run, next);
      run := run + [next];
    }

    /** An attempt with this delay is recorded. */
    ghost method Allow(delay: nat)
      requires IsRun(conf, late, run)
      modifies `late
      ensures late == Max(old(late), delay) && IsRun(conf, late, run)
    {
      LaterRun(conf, late, Max(late, delay), run);
      late := Max(late, delay);
    }

    /** The attempt is the next step of the run. */
    ghost method RecordAttempt(e: Event, commit: Commit)
      requires IsRun(conf, late, run) && Now().phase.Saving? && Now().phase.since <= Now().clock
      requires Now().phase.offset == e.offset < |Now().log| && Now().log[e.offset].parsed.Parsed? && e == EventOf(Now(), e.offset)
      modifies `run, `late
      ensures IsRun(conf, late, run) && run == old(run) + [Attempted(old(Now()), e, commit)]
      ensures late == Max(old(late), old(Now()).clock - old(Now()).phase.since)
    {
      ghost var s := Now();
      Allow(s.clock - s.phase.since);
      AttemptedIsAttempt(conf, late, s, e, commit);
      Advance(Attempted(s, e, commit));
    }

    // ----- meanwhile -----

    /** The cleaner, which runs only when cleaning is on. */
    method Clean(commit: Commit)
      requires Valid()
      modifies `run, es
      ensures Valid() && Now().phase == old(Now()).phase
      ensures es.Contents() == if conf.cleanEvents && Applied(commit)
                               then EventTables.Clean(old(es.Contents()), DayBefore(conf, conf.ttlDays, clock))
                               else old(es.Contents())
      ensures old(run) <= run && (!old(Now()).phase.Panicked? ==> Always.Lives(run, |old(run)|))
    {
      if conf.cleanEvents {
        StoredIsValid(conf, late, run);
        ghost var s := Now();
        var cutoff := DayBefore(conf, conf.ttlDays, clock);
        var deleted, ok := es.DeleteOutdatedEvents(cutoff, commit);
        if Applied(commit) {
          ghost var next := s.(tables := es.Contents(), cutoffs := s.cutoffs + {cutoff});
          assert CleanEvents(conf, s, next);
          Advance(next);
        }
      }
    }

    method Mark(uid: Uid, seqNo: int, commit: Commit)
      requires Valid()
      modifies `run, es
      ensures Valid() && Now().phase == old(Now()).phase
      ensures es.Contents() == if Applied(commit) then SetRead(old(es.Contents()), Key(uid, seqNo)) else old(es.Contents())
      ensures old(run) <= run && (!old(Now()).phase.Panicked? ==> Always.Lives(run, |old(run)|))
    {
      StoredIsValid(conf, late, run);
      ghost var s := Now();
      var changed, ok := es.SetRead(uid, seqNo, commit);
      if Applied(commit) {
        ghost var next := s.(tables := es.Contents(), full := SetRead(s.full, Key(uid, seqNo)));
        assert MarkRead(s, next, Key(uid, seqNo));
        Advance(next);
      }
    }

    method Push()
      requires Valid()
      modifies `run, cache
      ensures Valid() && Now().phase == old(Now()).phase && Now().flow == FlowCheck(old(Now()).flow, clock)
      ensures old(run) <= run && (!old(Now()).phase.Panicked? ==> Always.Lives(run, |old(run)|))
    {
      ghost var s := Now();
      NothingDue(cache.kv, clock);
      var heads := cache.Check(clock);
      ghost var next := s.(flow := FlowCheck(s.flow, clock));
      assert CheckCache(s, next);
      Advance(next);
    }

    method Happens(e: Meanwhile)
      requires Valid()
      modifies `log, `clock, `position, `run, es, cache
      ensures Valid() && Now().phase == old(Now()).phase && old(clock) <= clock
      ensures old(run) <= run && (!old(Now()).phase.Panicked? ==> Always.Lives(run, |old(run)|))
    {
      ghost var s := Now();
      match e
      case Pass(elapsed) =>
        clock := clock + elapsed;
        assert Tick(s, s.(clock := clock));
        Advance(s.(clock := clock));
      case Produce(msg) =>
        log := log + [msg];
        assert Append(s, s.(log := log));
        Advance(s.(log := log));
      case Sweep(commit) =>
        Clean(commit);
      case MarkRow(uid, seqNo, commit) =>
        Mark(uid, seqNo, commit);
      case Flush =>
        Push();
      case FallBack(to) =>
        if to <= committed {
          position := to;
          assert Rewind(s, s.(position := to));
          Advance(s.(position := to));
        }
    }

    /** All that happens before a call. */
    method Wait(events: seq<Meanwhile>)
      requires Valid()
      modifies `log, `clock, `position, `run, es, cache
      ensures Valid() && Now().phase == old(Now()).phase && old(clock) <= clock
      ensures events == [] ==> unchanged(this) && unchanged(es) && unchanged(cache)
      ensures old(run) <= run && (!old(Now()).phase.Panicked? ==> Always.Lives(run, |old(run)|))
    {
      for i := 0 to |events|
        invariant Valid() && Now().phase == old(Now()).phase && old(clock) <= clock
        invariant late == old(late) && committed == old(committed)
        invariant i == 0 ==> unchanged(this) && unchanged(es) && unchanged(cache)
        invariant old(run) <= run && (!old(Now()).phase.Panicked? ==> Always.Lives(run, |old(run)|))
      {
        Happens(events[i]);
      }
    }

    /** The process dies; the next one reads on from the committed offset, with an empty cache. */
    method Restart()
      requires Valid()
      modifies `position, `run, cache
      ensures Valid() && Now().phase == Idle && position == committed && cache.kv == map[] && run == old(run) + [Now()]
    {
      ghost var s := Now();
      position := committed;
      cache.kv, cache.sending := map[], false;
      assert Crash(s, s.(position := committed, phase := Idle, flow := START));
      Advance(s.(position := committed, phase := Idle, flow := START));
    }

    // ----- the loop -----

    /** A message is fetched and decoded. */
    method FetchMessage() returns (accepted: bool)
      requires Valid() && Now().phase == Idle && position < |log|
      modifies `position, `run
      ensures Valid() && position == old(position) + 1 && run == old(run) + [Now()]
      ensures accepted <==> Accepts(conf, log[old(position)], clock)
      ensures Now().phase == if accepted then Saving(old(position), clock) else Idle
      ensures !accepted ==> old(position) in Now().rejected
    {
      var msg := log[position];
      accepted := |msg.value| <= conf.valueMaxBytes && msg.parsed.Parsed? && clock - msg.time <= DiscardAge(conf);
      ghost var s, o := Now(), position;
      position := position + 1;
      Advance(if accepted then s.(position := o + 1, phase := Saving(o, clock))
              else s.(position := o + 1, rejected := s.rejected + {o}, highWater := Max(s.highWater, o + 1)));
    }

    /** One attempt to save. Its delay is recorded. */
    method TrySave(o: Offset, commit: Commit) returns (r: SaveResult)
      requires Valid() && Now().phase.Saving? && Now().phase.offset == o && Now().phase.since <= clock
      modifies `run, `late, es
      ensures Valid() && Now().phase == AfterSave(o, r, old(Now()).phase) && run == old(run) + [Now()]
      ensures r == Failed(DuplicateKey) <==> o in old(es.events) && commit == Interrupted
      ensures r.Saved? ==> Succeeds(late, old(Now()), Now(), r.seqMap)
      ensures late == Max(old(late), clock - old(Now()).phase.since)
    {
      StoredIsValid(conf, late, run);
      ghost var s := Now();
      var e := Event(o, log[o].time, log[o].value, log[o].parsed.to);
      DuplicateIff(conf, late, run, e, commit);
      RecordAttempt(e, commit);
      r := es.Save(e, commit);
    }

    /** The new heads are put into the cache. */
    method PutHeads(o: Offset, seqMap: map<Uid, int>) returns (panicked: bool)
      requires Valid() && Now().phase == Putting(o, seqMap)
      modifies `run, cache
      ensures Valid() && !panicked && Now().phase == Committing(o) && run == old(run) + [Now()]
      ensures Puts(old(Now()), Now(), seqMap)
    {
      PutNeverPanics(conf, late, run);
      ghost var s := Now();
      panicked := cache.Put(seqMap, clock);
      ghost var next := s.(flow := FlowPut(s.flow, seqMap, clock), phase := Committing(o));
      assert Put(s, next);
      Advance(next);
    }

    /** The offset is committed back to Kafka. */
    method CommitMessages(o: Offset, stored: bool, ok: bool)
      requires Valid() && Now().phase == Committing(o) && (ok ==> stored)
      modifies `committed, `run
      ensures Valid() && committed == (if stored then o + 1 else old(committed)) && run == old(run) + [Now()]
      ensures Now().phase == if ok then Idle else Committing(o)
    {
      ghost var s := Now();
      if stored {
        committed := o + 1;
      }
      ghost var next := s.(committed := committed, phase := if ok then Idle else s.phase);
      assert CommitOffset(s, next, stored, ok);
      Advance(next);
    }

    /** Commit until it succeeds. When `calls` run out the loop goes on later, as after a cancellation. */
    method CommitLoop(calls: seq<Call>, i: nat, o: Offset) returns (j: nat, exit: Exit)
      requires Valid() && i <= |calls| && Now().phase == Committing(o)
      modifies this, es, cache
      ensures Valid() && i <= j <= |calls| && late == old(late) && old(clock) <= clock
      ensures exit != Panics && Now().phase == if exit == Cancelled then Committing(o) else Idle
      ensures Stopped(calls, i, j, exit) && (exit == Done ==> committed == o + 1)
      ensures old(run) <= run && Always.Lives(run, |old(run)|)
    {
      j := i;
      while j < |calls|
        invariant Valid() && i <= j <= |calls| && late == old(late) && old(clock) <= clock
        invariant Now().phase == Committing(o) && old(run) <= run && Always.Lives(run, |old(run)|)
      {
        var call := calls[j];
        Wait(call.before);
        j := j + 1;
        if call.dies {
          Restart();
          return j, Died;
        }
        CommitMessages(o, call.stored || call.ok, call.ok);
        if call.ok {
          return j, Done;
        }
        if call.cancelled {
          return j, Cancelled;
        }
      }
      return j, Cancelled;
    }

    /** What comes after a save that succeeded. */
    method AfterSaved(calls: seq<Call>, i: nat, o: Offset, seqMap: map<Uid, int>) returns (j: nat, exit: Exit)
      requires Valid() && i <= |calls| && Now().phase == if seqMap != map[] then Putting(o, seqMap) else Committing(o)
      modifies this, es, cache
      ensures Valid() && i <= j <= |calls| && late == old(late) && old(clock) <= clock
      ensures exit != Panics && Now().phase == if exit == Cancelled then Committing(o) else Idle
      ensures Stopped(calls, i, j, exit) && (exit == Done ==> committed == o + 1)
      ensures old(run) <= run && Always.Lives(run, |old(run)|)
      ensures seqMap != map[] ==> PutBetween(run, |old(run)| - 1, |run| - 1, seqMap)
    {
      if |seqMap| > 0 {
        var panicked := PutHeads(o, seqMap);
        if panicked {
          return i, Panics;
        }
        assert Puts(run[|old(run)| - 1], run[|old(run)|], seqMap);
      }
      j, exit := CommitLoop(calls, i, o);
    }

    /**
     One attempt and what follows from it, or `again` when it failed and may be repeated. A duplicate key error
     panics, and is not taken for the cancellation that may have caused it.
     */
    method SaveOnce(calls: seq<Call>, i: nat, o: Offset) returns (j: nat, exit: Exit, again: bool)
      requires Valid() && 0 < i <= |calls| && Now().phase.Saving? && Now().phase.offset == o && Now().phase.since <= clock
      modifies this, es, cache
      ensures Valid() && i <= j <= |calls| && old(clock) <= clock
      ensures EndsIn(exit, old(Now()).phase, Now().phase) && late == Max(old(late), old(clock) - old(Now()).phase.since)
      ensures if again then j == i && exit == Cancelled && Now().phase == old(Now()).phase else Stopped(calls, i, j, exit)
      ensures exit == Done ==> committed == o + 1 && SavedAndPut(late, run, |old(run)|, o)
      ensures old(run) <= run && (exit != Panics <==> Always.Lives(run, |old(run)|))
    {
      var r := TrySave(o, calls[i - 1].commit);
      match r {
        case Saved(seqMap) =>
          assert SucceedsAt(late, run, |old(run)|, seqMap);
          j, exit := AfterSaved(calls, i, o, seqMap);
          assert SucceedsAt(late, run, |old(run)|, seqMap);
          return j, exit, false;
        case Failed(error) =>
          if error == DuplicateKey {
            assert run[|run| - 1].phase.Panicked?;
            return i, Panics, false;
          }
          return i, Cancelled, true;
      }
    }

    /** Save until it succeeds, then commit. */
    method SaveLoop(calls: seq<Call>, i: nat, o: Offset) returns (j: nat, exit: Exit)
      requires Valid() && i <= |calls| && Now().phase.Saving? && Now().phase.offset == o && Now().phase.since <= clock
      modifies this, es, cache
      ensures Valid() && i <= j <= |calls| && old(clock) <= clock
      ensures EndsIn(exit, old(Now()).phase, Now().phase)
      ensures late <= Max(old(late), clock - old(Now()).phase.since)
      ensures Stopped(calls, i, j, exit)
      ensures exit == Done ==> committed == o + 1 && SavedAndPut(late, run, |old(run)|, o)
      ensures old(run) <= run && (exit != Panics <==> Always.Lives(run, |old(run)|))
    {
      j, exit := i, Cancelled;
      ghost var saving := Now().phase;
      while j < |calls|
        invariant Valid() && i <= j <= |calls| && old(clock) <= clock && exit == Cancelled
        invariant Now().phase == saving && late <= Max(old(late), clock - saving.since)
        invariant old(run) <= run && Always.Lives(run, |old(run)|)
      {
        var call := calls[j];
        Wait(call.before);
        j := j + 1;
        if call.dies {
          Restart();
          return j, Died;
        }
        var again: bool;
        j, exit, again := SaveOnce(calls, j, o);
        if !again || call.cancelled {
          return;
        }
      }
    }

    /** One turn of the consume loop: a message is fetched and, if it is accepted, saved and committed. */
    method ConsumeOne(calls: seq<Call>, i: nat) returns (j: nat, exit: Exit)
      requires Valid() && i < |calls| && Now().phase == Idle
      modifies this, es, cache
      ensures Valid() && i < j <= |calls| && old(clock) <= clock && late <= Max(old(late), clock - old(clock))
      ensures exit == Done || exit == Died ==> Now().phase == Idle
      ensures old(run) <= run && (exit != Panics <==> Always.Lives(run, |old(run)|))
      ensures exit == Panics <==> Now().phase.Panicked?
      ensures Stopped(calls, i, j, exit)
      ensures exit == Done && calls[i].ok && calls[i].before == [] && old(position) < |old(log)| ==>
                if Accepts(conf, old(log)[old(position)], old(clock))
                then committed == old(position) + 1 && SavedAndPut(late, run, |old(run)|, old(position))
                else old(position) in Now().rejected
    {
      var call := calls[i];
      Wait(call.before);
      j := i + 1;
      if call.dies {
        Restart();
        return j, Died;
      }
      if !call.ok || position >= |log| {
        return j, if call.cancelled then Cancelled else Done;
      }
      var o := position;
      var accepted := FetchMessage();
      if !accepted {
        return j, Done;
      }
      j, exit := SaveLoop(calls, j, o);
    }

    /** Some attempt made since position `from` of the run met a stored offset and could not read its row back. */
    ghost predicate RereadFailed(from: nat)
      reads this
    {
      exists n :: 0 < from <= n < |run| && Always.RereadFails(late, run[n - 1], run[n])
    }

    /**
     The consume loop, with restarts, for as long as `calls` says how its calls end and what happens
     between them. It panics exactly if a stored offset is saved again and its row cannot be read back. In
     any case the whole execution is a run of the machine; every offset below the committed one was
     inserted or refused; and none was inserted twice if no attempt of any message was a day late, or
     cleaning is off.
     */
    method ConsumeLoop(calls: seq<Call>) returns (panicked: bool, used: nat)
      requires Valid() && Now().phase == Idle
      modifies this, es, cache
      ensures Valid() && old(clock) <= clock && late <= Max(old(late), clock - old(clock))
      ensures old(run) <= run && (panicked <==> RereadFailed(|old(run)|)) && (panicked <==> Now().phase.Panicked?)
      ensures used <= |calls| && (panicked || used == |calls| || (0 < used && calls[used - 1].cancelled))
      ensures Accounted(Now()) && (InTime(conf, late) ==> AtMostOnce(Now())) && PutsBeforeCommits(late, run)
    {
      var j, exit := 0, Done;
      while j < |calls| && exit != Cancelled && exit != Panics
        invariant Valid() && j <= |calls| && old(clock) <= clock && late <= Max(old(late), clock - old(clock))
        invariant exit == Done || exit == Died ==> Now().phase == Idle
        invariant old(run) <= run && (exit != Panics <==> Always.Lives(run, |old(run)|))
        invariant exit == Panics <==> Now().phase.Panicked?
        invariant exit == Cancelled ==> j > 0 && (j == |calls| || calls[j - 1].cancelled)
      {
        j, exit := ConsumeOne(calls, j);
      }
      panicked, used := exit == Panics, j;
      Always.LivesIff(conf, late, run, |old(run)|);
      RunIsAccounted(conf, late, run);
    }
  }

  /** Every offset below the committed one was inserted or refused. */
  ghost predicate Accounted(s: State)
  {
    s.committed <= |s.log| && forall o: nat | o < s.committed :: o in s.journal || o in s.rejected
  }

  /** Unless the process crashes, the heads of a save that succeeded are put before its offset is committed. */
  ghost predicate PutsBeforeCommits(w: nat, run: seq<State>)
  {
    forall i, j, m | 0 < i <= j < |run| && SucceedsAt(w, run, i, m) && m != map[] && GoesOn(run, i, j) ::
      CrashBetween(run, i, j) || PutBetween(run, i, j, m)
  }

  lemma RunIsAccounted(c: Config, w: nat, run: seq<State>)
    requires ValidConfig(c) && IsRun(c, w, run)
    ensures Accounted(run[|run| - 1]) && (InTime(c, w) ==> AtMostOnce(run[|run| - 1])) && PutsBeforeCommits(w, run)
  {
    forall i, j, m | 0 < i <= j < |run| && SucceedsAt(w, run, i, m) && m != map[] && GoesOn(run, i, j)
      ensures CrashBetween(run, i, j) || PutBetween(run, i, j, m)
    {
      PutBeforeCommit(c, w, run, i, j, m);
    }
    Always.NothingIsLost(c, w, run);
    if InTime(c, w) {
      ExactlyOnce.ExactlyOnce(c, w, run);
    }
  }

  lemma NothingDue(kv: Cache, now: Instant)
    ensures DueEntries(kv, now) == map[] ==> Waiting(kv, now) == kv
  {
    if DueEntries(kv, now) == map[] {
      forall u | u in kv ensures !Due(kv[u], now) {
        assert u !in DueEntries(kv, now);
      }
    }
  }

  lemma StoredIsValid(c: Config, w: nat, run: seq<State>)
    requires IsRun(c, w, run)
    ensures var s := run[|run| - 1];
            && EventTables.Valid(s.tables)
            && (s.phase.Saving? ==> s.phase.offset < |s.log| && s.log[s.phase.offset].parsed.Parsed?)
  {
    Always.RunKeeps(c, w, run, |run| - 1);
  }

  /** A duplicate key error comes out of an attempt exactly if the offset is stored and cannot be read back. */
  lemma DuplicateIff(c: Config, w: nat, run: seq<State>, e: Event, commit: Commit)
    requires run != [] && run[|run| - 1].phase.Saving? && IsRun(c, w, run)
    requires var s := run[|run| - 1];
             s.phase.offset == e.offset < |s.log| && s.log[e.offset].parsed.Parsed? && e == EventOf(s, e.offset)
    ensures var s := run[|run| - 1];
            Save(s.tables, e, commit).1 == Failed(DuplicateKey) <==> e.offset in s.tables.events && commit == Interrupted
  {
    var s := run[|run| - 1];
    Always.RunKeeps(c, w, run, |run| - 1);
    if e.offset in s.tables.events {
      assert FromLog(s.log, s.tables.events, e.offset);
      SaveAgain(s.tables, e, commit);
    } else {
      SaveInserts(s.tables, e, commit);
    }
  }

  /** The heads about to be put are larger than the cached ones. */
  lemma PutNeverPanics(c: Config, w: nat, run: seq<State>)
    requires IsRun(c, w, run) && run[|run| - 1].phase.Putting?
    ensures !PutPanics(run[|run| - 1].flow.cache, run[|run| - 1].phase.seqMap)
  {
    Always.RunKeeps(c, w, run, |run| - 1);
    var s := run[|run| - 1];
    forall u | u in s.phase.seqMap && u in s.flow.cache ensures s.phase.seqMap[u] > s.flow.cache[u].headSeq {
      assert Conserves(s.flow, u);
    }
  }
}
