/** What holds over every run of the ingestion, however late a message is saved: no panic, and nothing is lost. */
module IngestAlways {
  import opened EventTables
  import opened FlowControl
  import opened Ingest
  import Safety = IngestSafety

  /** Every stored row is that of the log, and its insertion is in the journal. */
  ghost predicate RowsFromLog(log: seq<Message>, stored: map<Offset, EventRow>, journal: seq<Offset>)
  {
    forall o | o in stored :: FromLog(log, stored, o) && o in journal
  }

  /** Everything below the high water mark was inserted or refused. */
  ghost predicate Covered(log: seq<Message>, journal: seq<Offset>, rejected: set<Offset>, highWater: nat)
  {
    highWater <= |log| && forall o: nat | o < highWater :: o in journal || o in rejected
  }

  ghost predicate Always(c: Config, s: State)
  {
    match s
    case State(log, clock, _, _, phase, tables, flow, _, journal, rejected, highWater, _) =>
      && Valid(tables)
      && RowsFromLog(log, tables.events, journal)
      && Covered(log, journal, rejected, highWater)
      && RejectedInv(c, log, rejected, highWater, clock)
      && PhaseInv(c, s)
      && FlowInv(flow, phase, tables, clock)
  }

  // ----- an attempt to save -----

  /** A stored event saved again changes nothing. */
  lemma AgainKeeps(c: Config, w: nat, s: State, s': State, commit: Commit)
    requires Always(c, s) && Attempt(w, s, s', commit) && s.phase.offset in s.tables.events
    ensures Always(c, s')
  {
    var o := s.phase.offset;
    assert FromLog(s.log, s.tables.events, o);
    SaveAgain(s.tables, EventOf(s, o), commit);
  }

  lemma StoresOrNot(t: Tables, e: Event, commit: Commit)
    requires Valid(t) && e.offset !in t.events
    ensures var (t', r) := Save(t, e, commit);
            && Valid(t')
            && (if e.offset in t'.events then t'.events == t.events[e.offset := EventRow(e.createTime, e.payload)] else t' == t)
            && (r.Saved? ==> e.offset in t'.events) && r != Failed(DuplicateKey)
  {
    SaveInserts(t, e, commit);
  }

  /** Inserting the event, or nothing, keeps what does not look at the user events. */
  lemma NewRest(c: Config, s: State, s': State, e: Event, r: SaveResult)
    requires RowsFromLog(s.log, s.tables.events, s.journal) && Covered(s.log, s.journal, s.rejected, s.highWater)
    requires RejectedInv(c, s.log, s.rejected, s.highWater, s.clock) && PhaseInv(c, s)
    requires s.phase.Saving? && e.offset == s.phase.offset && e == EventOf(s, e.offset)
    requires if e.offset in s'.tables.events
             then s'.tables.events == s.tables.events[e.offset := EventRow(e.createTime, e.payload)]
             else s'.tables == s.tables
    requires (r.Saved? ==> e.offset in s'.tables.events) && r != Failed(DuplicateKey)
    requires var stored := e.offset in s'.tables.events;
             s' == s.(tables := s'.tables, full := s'.full, phase := AfterSave(e.offset, r, s.phase),
                      journal := if stored then s.journal + [e.offset] else s.journal,
                      highWater := if stored then Max(s.highWater, e.offset + 1) else s.highWater)
    ensures RowsFromLog(s'.log, s'.tables.events, s'.journal) && Covered(s'.log, s'.journal, s'.rejected, s'.highWater)
    ensures RejectedInv(c, s'.log, s'.rejected, s'.highWater, s'.clock) && PhaseInv(c, s')
  {
  }

  /** A first or repeated insertion. */
  lemma NewKeeps(c: Config, w: nat, s: State, s': State, commit: Commit)
    requires Always(c, s) && Attempt(w, s, s', commit) && s.phase.offset !in s.tables.events
    ensures Always(c, s')
  {
    var e := EventOf(s, s.phase.offset);
    StoresOrNot(s.tables, e, commit);
    Safety.NewFlow(s.flow, s.phase, s.tables, s.clock, e, commit);
    NewRest(c, s, s', e, Save(s.tables, e, commit).1);
  }

  // ----- the other steps -----

  lemma LogKeeps(c: Config, s: State, s': State)
    requires Always(c, s) && (Append(s, s') || Tick(s, s') || Fetch(c, s, s'))
    ensures Always(c, s')
  {
    if Append(s, s') {
      assert s.log <= s'.log;
    } else if Tick(s, s') {
      SteadyLater(s.flow, s.clock, s'.clock);
    }
  }

  lemma OffsetKeeps(c: Config, s: State, s': State)
    requires Always(c, s) && (Crash(s, s') || Rewind(s, s') || exists stored, ok :: CommitOffset(s, s', stored, ok))
    ensures Always(c, s')
  {
  }

  lemma TablesKeep(c: Config, s: State, s': State)
    requires Always(c, s) && (CleanEvents(c, s, s') || exists k :: MarkRead(s, s', k))
    ensures Always(c, s')
  {
    if CleanEvents(c, s, s') {
      CleanKeepsValid(s.tables, DayBefore(c, c.ttlDays, s.clock));
    } else {
      var k :| MarkRead(s, s', k);
      SetReadKeepsValid(s.tables, k);
    }
    Safety.SameHeadsFlow(s.flow, s.phase, s.tables, s'.tables, s.clock);
  }

  lemma CacheKeeps(c: Config, s: State, s': State)
    requires Always(c, s) && (Put(s, s') || CheckCache(s, s'))
    ensures Always(c, s')
  {
    if Put(s, s') {
      Safety.PutFlow(s.flow, s.phase, s.tables, s.clock);
    } else {
      Safety.CheckFlow(s.flow, s.phase, s.tables, s.clock);
    }
  }

  lemma StepKeeps(c: Config, w: nat, s: State, s': State)
    requires Always(c, s) && Step(c, w, s, s')
    ensures Always(c, s')
  {
    if commit :| Attempt(w, s, s', commit) {
      if s.phase.offset in s.tables.events {
        AgainKeeps(c, w, s, s', commit);
      } else {
        NewKeeps(c, w, s, s', commit);
      }
    } else if Append(s, s') || Tick(s, s') || Fetch(c, s, s') {
      LogKeeps(c, s, s');
    } else if Put(s, s') || CheckCache(s, s') {
      CacheKeeps(c, s, s');
    } else if CleanEvents(c, s, s') || exists k :: MarkRead(s, s', k) {
      TablesKeep(c, s, s');
    } else {
      OffsetKeeps(c, s, s');
    }
  }

  lemma InitAlways(c: Config, s: State)
    requires Init(s)
    ensures Always(c, s)
  {
  }

  lemma Next(c: Config, w: nat, run: seq<State>, n: nat)
    requires IsRun(c, w, run) && 0 < n < |run| && Always(c, run[n - 1])
    ensures Always(c, run[n])
  {
    assert StepAt(c, w, run, n - 1);
    StepKeeps(c, w, run[n - 1], run[n]);
  }

  lemma {:induction false} RunKeeps(c: Config, w: nat, run: seq<State>, n: nat)
    requires IsRun(c, w, run) && n < |run|
    ensures Always(c, run[n])
  {
    if n == 0 {
      InitAlways(c, run[0]);
    } else {
      RunKeeps(c, w, run, n - 1);
      Next(c, w, run, n);
    }
  }

  /**
   In every run, with any delay of saves, across crashes and panics: every offset below the committed one was
   inserted, or refused by the filter, which refuses it still; and no put panics.
   */
  lemma NothingIsLost(c: Config, w: nat, run: seq<State>)
    requires IsRun(c, w, run)
    ensures var s := run[|run| - 1];
            && s.phase != Panicked(HeadPanic)
            && s.committed <= |s.log|
            && forall o: nat | o < s.committed :: o in s.journal || (o in s.rejected && !Accepts(c, s.log[o], s.clock))
  {
    RunKeeps(c, w, run, |run| - 1);
  }

  // ----- the panic -----

  /** An attempt at a stored offset, whose row cannot be read back. */
  ghost predicate RereadFails(w: nat, s: State, s': State)
  {
    s.phase.Saving? && s.phase.offset in s.tables.events && Attempt(w, s, s', Interrupted)
  }

  lemma AttemptPanicsIff(c: Config, w: nat, s: State, s': State, commit: Commit)
    requires Always(c, s) && Attempt(w, s, s', commit)
    ensures s'.phase.Panicked? <==> s.phase.offset in s.tables.events && commit == Interrupted
  {
    var o := s.phase.offset;
    if o in s.tables.events {
      assert FromLog(s.log, s.tables.events, o);
      SaveAgain(s.tables, EventOf(s, o), commit);
    } else {
      StoresOrNot(s.tables, EventOf(s, o), commit);
    }
  }

  lemma OthersDoNotPanic(c: Config, w: nat, s: State, s': State)
    requires Always(c, s) && !s.phase.Panicked? && Step(c, w, s, s') && forall commit :: !Attempt(w, s, s', commit)
    ensures !s'.phase.Panicked?
  {
    if Put(s, s') {
      Safety.PutFlow(s.flow, s.phase, s.tables, s.clock);
    }
  }

  lemma StepPanicsIff(c: Config, w: nat, s: State, s': State)
    requires Always(c, s) && !s.phase.Panicked? && Step(c, w, s, s')
    ensures s'.phase.Panicked? <==> RereadFails(w, s, s')
  {
    if commit :| Attempt(w, s, s', commit) {
      AttemptPanicsIff(c, w, s, s', commit);
      if RereadFails(w, s, s') {
        AttemptPanicsIff(c, w, s, s', Interrupted);
      }
    } else {
      OthersDoNotPanic(c, w, s, s');
    }
  }

  /** In every run, the consumer panics in a step exactly if it saves a stored offset and cannot read the row back. */
  lemma PanicsIff(c: Config, w: nat, run: seq<State>, n: nat)
    requires IsRun(c, w, run) && 0 < n < |run| && !run[n - 1].phase.Panicked?
    ensures run[n].phase.Panicked? <==> RereadFails(w, run[n - 1], run[n])
  {
    RunKeeps(c, w, run, n - 1);
    assert StepAt(c, w, run, n - 1);
    StepPanicsIff(c, w, run[n - 1], run[n]);
  }

  /** No panic in the states from position `from` on. */
  ghost predicate Lives(run: seq<State>, from: nat)
  {
    forall n :: from <= n < |run| ==> !run[n].phase.Panicked?
  }

  /** From position `from` on, the consumer panics exactly if some row cannot be read back. */
  lemma {:induction false} LivesIff(c: Config, w: nat, run: seq<State>, from: nat)
    requires IsRun(c, w, run) && 0 < from <= |run| && !run[from - 1].phase.Panicked?
    ensures Lives(run, from) <==> forall n :: from <= n < |run| ==> !RereadFails(w, run[n - 1], run[n])
    decreases |run| - from
  {
    if from < |run| {
      PanicsIff(c, w, run, from);
      if !run[from].phase.Panicked? {
        LivesIff(c, w, run, from + 1);
      }
    }
  }
}
