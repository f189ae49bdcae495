/** Every step of the ingestion keeps its invariant, as long as a message is saved within a day of passing the filter. */
module IngestSafety {
  import opened EventTables
  import opened HeadCache
  import opened FlowControl
  import opened Ingest

  // ----- the tables -----

  lemma SameNumber(t: Tables, full: Tables, u: Uid, createTime: Instant, offset: Offset)
    requires Valid(t) && Valid(full) && t.userSeq == full.userSeq
    ensures var a, b := AllocateOne(t, u, createTime, offset), AllocateOne(full, u, createTime, offset);
            && (a.Refused? <==> b.Refused?)
            && (a.Allocated? ==> a.tables.userSeq == b.tables.userSeq)
            && (a.Refused? ==> a.error == b.error)
  {
    var k := Key(u, Head(t, u) + 1);
    assert k !in t.userEvents && k !in full.userEvents;
  }

  /** Two copies with the same heads allocate alike. */
  lemma {:induction false} SameNumbers(t: Tables, full: Tables, to: seq<Uid>, createTime: Instant, offset: Offset)
    requires Valid(t) && Valid(full) && t.userSeq == full.userSeq
    requires offset in t.events && t.events[offset].createTime == createTime
    requires offset in full.events && full.events[offset].createTime == createTime
    ensures var a, b := AllocateAll(t, to, createTime, offset), AllocateAll(full, to, createTime, offset);
            && (a.Refused? <==> b.Refused?)
            && (a.Allocated? ==> a.tables.userSeq == b.tables.userSeq)
            && (a.Refused? ==> a.error == b.error)
  {
    if to != [] {
      var init, last := to[..|to| - 1], to[|to| - 1];
      SameNumbers(t, full, init, createTime, offset);
      var a, b := AllocateAll(t, init, createTime, offset), AllocateAll(full, init, createTime, offset);
      if a.Allocated? {
        assert Valid(a.tables) by { AllocationExtends(t, init, createTime, offset); }
        assert Valid(b.tables) by { AllocationExtends(full, init, createTime, offset); }
        SameNumber(a.tables, b.tables, last, createTime, offset);
      }
    }
  }

  lemma TwinRow(t: Tables, full: Tables, t': Tables, full': Tables, e: Event, k: Key)
    requires Valid(t) && Valid(full) && Twin(t, full) && e.offset !in full.events
    requires Inserted(t, t', e) && Inserted(full, full', e) && t'.userSeq == full'.userSeq
    ensures k in t'.userEvents <==> k in full'.userEvents && full'.userEvents[k].offset in t'.events
    ensures k in t'.userEvents ==> t'.userEvents[k] == full'.userEvents[k]
  {
    assert Head(t, k.uid) == Head(full, k.uid) && Head(t', k.uid) == Head(full', k.uid);
    assert k in t.userEvents <==> k in full.userEvents && full.userEvents[k].offset in t.events;
    if k in full.userEvents {
      assert full.userEvents[k].offset in full.events;
    }
  }

  lemma TwinInserted(t: Tables, full: Tables, t': Tables, full': Tables, e: Event)
    requires Valid(t) && Valid(full) && Twin(t, full) && e.offset !in full.events
    requires Inserted(t, t', e) && Inserted(full, full', e) && t'.userSeq == full'.userSeq
    ensures Twin(t', full')
  {
    forall k
      ensures k in t'.userEvents <==> k in full'.userEvents && full'.userEvents[k].offset in t'.events
      ensures k in t'.userEvents ==> t'.userEvents[k] == full'.userEvents[k]
    {
      TwinRow(t, full, t', full', e, k);
    }
  }

  lemma {:induction false} AllocationKeepsEvents(t: Tables, to: seq<Uid>, createTime: Instant, offset: Offset)
    ensures var a := AllocateAll(t, to, createTime, offset);
            a.Allocated? ==> a.tables.events == t.events
  {
    if to != [] {
      AllocationKeepsEvents(t, to[..|to| - 1], createTime, offset);
    }
  }

  lemma SameAllocation(t: Tables, full: Tables, e: Event)
    requires Valid(t) && Valid(full) && t.userSeq == full.userSeq
    requires e.offset in t.events && t.events[e.offset].createTime == e.createTime
    requires e.offset in full.events && full.events[e.offset].createTime == e.createTime
    ensures var a, b := AllocateAll(t, e.to, e.createTime, e.offset), AllocateAll(full, e.to, e.createTime, e.offset);
            && (a.Refused? <==> b.Refused?)
            && (a.Allocated? ==> a.tables.userSeq == b.tables.userSeq && HeadsOf(a.tables, e.to) == HeadsOf(b.tables, e.to))
            && (a.Refused? ==> a.error == b.error)
  {
    SameNumbers(t, full, e.to, e.createTime, e.offset);
    var a, b := AllocateAll(t, e.to, e.createTime, e.offset), AllocateAll(full, e.to, e.createTime, e.offset);
    if a.Allocated? {
      assert HeadsOf(a.tables, e.to) == HeadsOf(b.tables, e.to);
    }
  }

  lemma SameBody(t: Tables, full: Tables, e: Event, readable: bool)
    requires Valid(t) && Valid(full) && t.userSeq == full.userSeq && e.offset !in full.events && e.offset !in t.events
    ensures var a, b := SaveBody(t, e, readable), SaveBody(full, e, readable);
            && a.0.userSeq == b.0.userSeq && a.1 == b.1
            && (a.1.Saved? ==> e.offset in a.0.events && e.offset in b.0.events)
  {
    var row := EventRow(e.createTime, e.payload);
    var t1, full1 := t.(events := t.events[e.offset := row]), full.(events := full.events[e.offset := row]);
    SameAllocation(t1, full1, e);
    AllocationKeepsEvents(t1, e.to, e.createTime, e.offset);
    AllocationKeepsEvents(full1, e.to, e.createTime, e.offset);
  }

  lemma SameOutcome(t: Tables, full: Tables, e: Event, commit: Commit)
    requires Valid(t) && Valid(full) && t.userSeq == full.userSeq && e.offset !in full.events && e.offset !in t.events
    ensures Save(t, e, commit).0.userSeq == Save(full, e, commit).0.userSeq
    ensures Save(t, e, commit).1 == Save(full, e, commit).1
    ensures e.offset in Save(t, e, commit).0.events <==> e.offset in Save(full, e, commit).0.events
  {
    SameBody(t, full, e, commit != Interrupted);
  }

  /** Saving a new offset has the same outcome with and without earlier cleaning. */
  lemma TwinSave(t: Tables, full: Tables, e: Event, commit: Commit)
    requires Valid(t) && Valid(full) && Twin(t, full) && e.offset !in full.events
    ensures var (t', r) := Save(t, e, commit);
            var (full', r') := Save(full, e, commit);
            && r == r' && Twin(t', full')
            && (e.offset in t'.events <==> e.offset in full'.events)
            && (e.offset in full'.events ==> Inserted(full, full', e) && Inserted(t, t', e))
            && (e.offset !in full'.events ==> t' == t && full' == full)
  {
    SameOutcome(t, full, e, commit);
    SaveInserts(t, e, commit);
    SaveInserts(full, e, commit);
    var t', full' := Save(t, e, commit).0, Save(full, e, commit).0;
    if e.offset in full'.events {
      TwinInserted(t, full, t', full', e);
    }
  }

  lemma InsertedKeepsOrder(full: Tables, full': Tables, e: Event)
    requires Valid(full) && Complete(full) && Ordered(full) && Inserted(full, full', e)
    requires forall o | o in full.events :: o < e.offset
    ensures Complete(full') && Ordered(full')
  {
    forall k: Key | 1 <= k.seqNo <= Head(full', k.uid) ensures k in full'.userEvents {
      if k.seqNo <= Head(full, k.uid) {
        assert k in full.userEvents;
      }
    }
    forall k, l | k in full'.userEvents && l in full'.userEvents && k.uid == l.uid && k.seqNo <= l.seqNo
      ensures full'.userEvents[k].offset <= full'.userEvents[l].offset
    {
      if k in full.userEvents {
        assert full.userEvents[k].offset in full.events;
      } else {
        assert l !in full.userEvents;
      }
    }
  }

  lemma TwinClean(t: Tables, full: Tables, cutoff: Instant)
    requires Twin(t, full)
    ensures Twin(Clean(t, cutoff), full)
  {
  }

  lemma SetReadKeepsOffsets(t: Tables, k: Key)
    ensures SetRead(t, k).userEvents.Keys == t.userEvents.Keys
    ensures forall j | j in t.userEvents :: SetRead(t, k).userEvents[j].offset == t.userEvents[j].offset
  {
  }

  lemma TwinMarkedRow(t: Tables, full: Tables, k: Key, j: Key)
    requires Twin(t, full)
    ensures var t', full' := SetRead(t, k), SetRead(full, k);
            && (j in t'.userEvents <==> j in full'.userEvents && full'.userEvents[j].offset in t'.events)
            && (j in t'.userEvents ==> t'.userEvents[j] == full'.userEvents[j])
  {
    SetReadKeepsOffsets(t, k);
    SetReadKeepsOffsets(full, k);
    assert j in t.userEvents <==> j in full.userEvents && full.userEvents[j].offset in t.events;
  }

  lemma TwinSetRead(t: Tables, full: Tables, k: Key)
    requires Twin(t, full)
    ensures Twin(SetRead(t, k), SetRead(full, k))
  {
    var t', full' := SetRead(t, k), SetRead(full, k);
    forall j
      ensures j in t'.userEvents <==> j in full'.userEvents && full'.userEvents[j].offset in t'.events
      ensures j in t'.userEvents ==> t'.userEvents[j] == full'.userEvents[j]
    {
      TwinMarkedRow(t, full, k, j);
    }
  }

  lemma MarkedTables(t: Tables, full: Tables, k: Key)
    requires TablesInv(t, full)
    ensures TablesInv(SetRead(t, k), SetRead(full, k))
  {
    SetReadKeepsValid(t, k);
    SetReadKeepsValid(full, k);
    TwinSetRead(t, full, k);
    SetReadKeepsOffsets(full, k);
    assert forall u :: Head(SetRead(full, k), u) == Head(full, u);
  }

  // ----- the steps -----

  lemma AcceptedIsYoung(c: Config, m: Message, now: Instant)
    requires ValidConfig(c) && c.cleanEvents && Accepts(c, m, now)
    ensures now <= m.time + c.ttlDays * DAY
  {
    assert c.ttlDays * DAY <= 100 * DAY;
  }

  /** A refused message stays refused: messages only get older. */
  lemma RefusedStaysRefused(c: Config, m: Message, now: Instant, later: Instant)
    requires now <= later && !Accepts(c, m, now)
    ensures !Accepts(c, m, later)
  {
  }

  /** The message being saved is either stored, or newer than everything stored: it was not cleaned. */
  lemma SavingIsStoredOrNew(c: Config, w: nat, s: State)
    requires ValidConfig(c) && Inv(c, s) && (c.cleanEvents ==> w < DAY)
    requires s.phase.Saving? && s.clock <= s.phase.since + w
    ensures var o := s.phase.offset;
            || (o in s.tables.events && SameEvent(s.tables.events[o], EventOf(s, o)))
            || (o == s.highWater && o !in s.full.events)
  {
    var o := s.phase.offset;
    if o in s.full.events {
      assert FromLog(s.log, s.full.events, o);
      assert (c.ttlDays + 1) * DAY == c.ttlDays * DAY + DAY;
      if Cleaned(s.tables.events, s.full.events, o) {
        var x :| x in s.cutoffs && s.full.events[o].createTime <= x;
        AcceptedIsYoung(c, s.log[o], s.phase.since);
        assert false;
      }
    }
  }

  lemma AttemptAgain(c: Config, w: nat, s: State, s': State, commit: Commit)
    requires ValidConfig(c) && Inv(c, s) && Attempt(w, s, s', commit)
    requires s.phase.offset in s.tables.events && SameEvent(s.tables.events[s.phase.offset], EventOf(s, s.phase.offset))
    ensures Inv(c, s')
  {
    var o := s.phase.offset;
    var e := EventOf(s, o);
    SaveAgain(s.tables, e, commit);
    assert o in s.full.events && s.full.events[o] == s.tables.events[o];
    SaveAgain(s.full, e, commit);
    assert s' == s.(phase := s'.phase);
  }

  lemma NewJournal(log: seq<Message>, stored: map<Offset, EventRow>, journal: seq<Offset>, rejected: set<Offset>, o: Offset)
    requires JournalInv(log, stored, journal, rejected, o) && o < |log| && log[o].parsed.Parsed?
    ensures JournalInv(log, stored[o := EventRow(log[o].time, log[o].value)], journal + [o], rejected, o + 1)
  {
    var stored', journal' := stored[o := EventRow(log[o].time, log[o].value)], journal + [o];
    forall p ensures p in journal' <==> p in stored' {
      assert p in journal <==> p in stored;
    }
    forall i, j | 0 <= i < j < |journal'| ensures journal'[i] < journal'[j] {
      assert journal'[i] in journal;
    }
    forall p | p in stored' ensures p < o + 1 && FromLog(log, stored', p) {
      assert p != o ==> FromLog(log, stored, p);
    }
  }

  lemma NewTables(t: Tables, full: Tables, e: Event, commit: Commit)
    requires TablesInv(t, full) && e.offset !in full.events
    requires forall o | o in full.events :: o < e.offset
    ensures TablesInv(Save(t, e, commit).0, Save(full, e, commit).0)
  {
    TwinSave(t, full, e, commit);
    SaveInserts(t, e, commit);
    SaveInserts(full, e, commit);
    var full' := Save(full, e, commit).0;
    if e.offset in full'.events {
      InsertedKeepsOrder(full, full', e);
    }
  }

  lemma NewFlow(flow: Flow, phase: Phase, t: Tables, clock: Instant, e: Event, commit: Commit)
    requires FlowInv(flow, phase, t, clock) && phase.Saving? && Valid(t) && e.offset !in t.events
    ensures var (t', r) := Save(t, e, commit);
            FlowInv(flow, AfterSave(e.offset, r, phase), t', clock)
  {
    SaveInserts(t, e, commit);
    var (t', r) := Save(t, e, commit);
    forall u ensures LargestPut(flow.puts, u) <= Head(t, u) <= Head(t', u) {
    }
    if r.Saved? {
      forall u | u in r.seqMap ensures LargestPut(flow.puts, u) < r.seqMap[u] == Head(t', u) {
        OccurrencesPositive(e.to, u);
      }
    }
  }

  lemma NewCleaned(c: Config, kept: map<Offset, EventRow>, stored: map<Offset, EventRow>, cutoffs: set<Instant>,
                   clock: Instant, o: Offset, row: EventRow)
    requires CleanedInv(c, kept, stored, cutoffs, clock)
    ensures CleanedInv(c, kept[o := row], stored[o := row], cutoffs, clock)
  {
    var kept', stored' := kept[o := row], stored[o := row];
    forall p | Cleaned(kept', stored', p) ensures exists x | x in cutoffs :: stored'[p].createTime <= x {
      assert Cleaned(kept, stored, p);
    }
  }

  /** What a first attempt does: nothing, or everything once. */
  lemma AttemptEffect(s: State, e: Event, commit: Commit)
    requires TablesInv(s.tables, s.full) && e.offset !in s.full.events
    ensures var t, full := Save(s.tables, e, commit).0, Save(s.full, e, commit).0;
            var row := EventRow(e.createTime, e.payload);
            if e.offset in t.events
            then t.events == s.tables.events[e.offset := row] && full.events == s.full.events[e.offset := row]
            else t == s.tables && full == s.full
    ensures Save(s.tables, e, commit).1.Saved? ==> e.offset in Save(s.tables, e, commit).0.events
    ensures Save(s.tables, e, commit).1 != Failed(DuplicateKey)
  {
    TwinSave(s.tables, s.full, e, commit);
    SaveInserts(s.tables, e, commit);
  }

  /** The parts of the invariant that do not look at the user events. */
  ghost predicate Rest(c: Config, s: State)
  {
    match s
    case State(log, clock, _, _, phase, tables, flow, full, journal, rejected, highWater, cutoffs) =>
      && JournalInv(log, full.events, journal, rejected, highWater)
      && RejectedInv(c, log, rejected, highWater, clock)
      && CleanedInv(c, tables.events, full.events, cutoffs, clock)
      && PhaseInv(c, s)
      && FlowInv(flow, phase, tables, clock)
  }

  /** Where the consumer stands after a first attempt. */
  lemma NewPhase(c: Config, s: State, s': State, o: Offset, r: SaveResult, stored: bool)
    requires PhaseInv(c, s) && s.phase.Saving? && s.phase.offset == o == s.highWater && o < |s.log|
    requires (r.Saved? ==> stored) && r != Failed(DuplicateKey)
    requires s'.log == s.log && s'.clock == s.clock && s'.committed == s.committed && s'.position == s.position
    requires s'.rejected == s.rejected && s'.phase == AfterSave(o, r, s.phase)
    requires s'.highWater == if stored then Max(s.highWater, o + 1) else s.highWater
    ensures PhaseInv(c, s')
  {
  }

  /** A first attempt that changes nothing, or stores the event once, keeps those parts. */
  lemma NewRest(c: Config, s: State, s': State, e: Event, r: SaveResult)
    requires Rest(c, s) && s.phase.Saving? && s.phase.offset == e.offset == s.highWater && e.offset !in s.full.events
    requires e.offset < |s.log| && s.log[e.offset].parsed.Parsed? && e == EventOf(s, e.offset)
    requires var row := EventRow(e.createTime, e.payload);
             if e.offset in s'.tables.events
             then s'.tables.events == s.tables.events[e.offset := row] && s'.full.events == s.full.events[e.offset := row]
             else s'.tables == s.tables && s'.full == s.full
    requires (r.Saved? ==> e.offset in s'.tables.events) && r != Failed(DuplicateKey)
    requires var stored := e.offset in s'.tables.events;
             s' == s.(tables := s'.tables, full := s'.full, phase := AfterSave(e.offset, r, s.phase),
                      journal := if stored then s.journal + [e.offset] else s.journal,
                      highWater := if stored then Max(s.highWater, e.offset + 1) else s.highWater)
    requires FlowInv(s'.flow, s'.phase, s'.tables, s'.clock)
    ensures Rest(c, s')
  {
    NewPhase(c, s, s', e.offset, r, e.offset in s'.tables.events);
    if e.offset in s'.tables.events {
      NewJournal(s.log, s.full.events, s.journal, s.rejected, e.offset);
      NewCleaned(c, s.tables.events, s.full.events, s.cutoffs, s.clock, e.offset, EventRow(e.createTime, e.payload));
    }
  }

  lemma AttemptNew(c: Config, w: nat, s: State, s': State, commit: Commit)
    requires Inv(c, s) && Attempt(w, s, s', commit)
    requires s.phase.offset == s.highWater && s.phase.offset !in s.full.events
    ensures Inv(c, s')
  {
    var e := EventOf(s, s.phase.offset);
    NewTables(s.tables, s.full, e, commit);
    NewFlow(s.flow, s.phase, s.tables, s.clock, e, commit);
    AttemptEffect(s, e, commit);
    NewRest(c, s, s', e, Save(s.tables, e, commit).1);
  }

  lemma FetchKeepsInv(c: Config, s: State, s': State)
    requires ValidConfig(c) && Inv(c, s) && Fetch(c, s, s')
    ensures Inv(c, s')
  {
  }

  lemma TickKeepsInv(c: Config, s: State, s': State)
    requires ValidConfig(c) && Inv(c, s) && Tick(s, s')
    ensures Inv(c, s')
  {
    SteadyLater(s.flow, s.clock, s'.clock);
    forall o | o in s'.rejected ensures !Accepts(c, s'.log[o], s'.clock) {
      RefusedStaysRefused(c, s.log[o], s.clock, s'.clock);
    }
  }

  lemma AppendKeepsInv(c: Config, s: State, s': State)
    requires ValidConfig(c) && Inv(c, s) && Append(s, s')
    ensures Inv(c, s')
  {
    forall o | o in s.full.events ensures FromLog(s'.log, s.full.events, o) {
      assert FromLog(s.log, s.full.events, o);
    }
  }

  lemma MoreCleaned(c: Config, t: Tables, stored: map<Offset, EventRow>, cutoffs: set<Instant>, clock: Instant, cutoff: Instant)
    requires CleanedInv(c, t.events, stored, cutoffs, clock) && c.cleanEvents && cutoff + (c.ttlDays + 1) * DAY <= clock
    requires forall o | o in t.events :: o in stored && t.events[o] == stored[o]
    ensures CleanedInv(c, Clean(t, cutoff).events, stored, cutoffs + {cutoff}, clock)
  {
    var kept := Clean(t, cutoff).events;
    forall o | Cleaned(kept, stored, o) ensures exists x | x in cutoffs + {cutoff} :: stored[o].createTime <= x {
      if Cleaned(t.events, stored, o) {
        var x :| x in cutoffs && stored[o].createTime <= x;
        assert x in cutoffs + {cutoff};
      } else {
        assert cutoff in cutoffs + {cutoff};
      }
    }
  }

  lemma SameHeadsFlow(flow: Flow, phase: Phase, t: Tables, t': Tables, clock: Instant)
    requires FlowInv(flow, phase, t, clock) && t'.userSeq == t.userSeq
    ensures FlowInv(flow, phase, t', clock)
  {
    assert forall u :: Head(t', u) == Head(t, u);
  }

  lemma CleanKeepsInv(c: Config, s: State, s': State)
    requires ValidConfig(c) && Inv(c, s) && CleanEvents(c, s, s')
    ensures Inv(c, s')
  {
    var cutoff := DayBefore(c, c.ttlDays, s.clock);
    CleanKeepsValid(s.tables, cutoff);
    TwinClean(s.tables, s.full, cutoff);
    MoreCleaned(c, s.tables, s.full.events, s.cutoffs, s.clock, cutoff);
    SameHeadsFlow(s.flow, s.phase, s.tables, s'.tables, s.clock);
  }

  lemma MarkKeepsRest(c: Config, s: State, k: Key)
    requires Rest(c, s)
    ensures Rest(c, s.(tables := SetRead(s.tables, k), full := SetRead(s.full, k)))
  {
    SameHeadsFlow(s.flow, s.phase, s.tables, SetRead(s.tables, k), s.clock);
  }

  lemma MarkReadKeepsInv(c: Config, s: State, s': State, k: Key)
    requires Inv(c, s) && MarkRead(s, s', k)
    ensures Inv(c, s')
  {
    MarkedTables(s.tables, s.full, k);
    MarkKeepsRest(c, s, k);
  }

  lemma PutFlow(flow: Flow, phase: Phase, t: Tables, clock: Instant)
    requires FlowInv(flow, phase, t, clock) && phase.Putting?
    ensures !PutPanics(flow.cache, phase.seqMap)
    ensures FlowInv(FlowPut(flow, phase.seqMap, clock), Committing(phase.offset), t, clock)
  {
    PutKeepsSteady(flow, phase.seqMap, clock);
    var puts := FlowPut(flow, phase.seqMap, clock).puts;
    assert puts[..|puts| - 1] == flow.puts;
  }

  lemma PutKeepsInv(c: Config, s: State, s': State)
    requires ValidConfig(c) && Inv(c, s) && Put(s, s')
    ensures Inv(c, s')
  {
    PutFlow(s.flow, s.phase, s.tables, s.clock);
  }

  lemma CheckFlow(flow: Flow, phase: Phase, t: Tables, clock: Instant)
    requires FlowInv(flow, phase, t, clock)
    ensures FlowInv(FlowCheck(flow, clock), phase, t, clock)
  {
    CheckKeepsSteady(flow, clock);
  }

  lemma CheckKeepsInv(c: Config, s: State, s': State)
    requires ValidConfig(c) && Inv(c, s) && CheckCache(s, s')
    ensures Inv(c, s')
  {
    CheckFlow(s.flow, s.phase, s.tables, s.clock);
  }

  lemma CrashKeepsInv(c: Config, s: State, s': State)
    requires Inv(c, s) && Crash(s, s')
    ensures Inv(c, s')
  {
  }

  lemma RewindKeepsInv(c: Config, s: State, s': State)
    requires Inv(c, s) && Rewind(s, s')
    ensures Inv(c, s')
  {
  }

  lemma OffsetKeepsInv(c: Config, s: State, s': State, stored: bool, ok: bool)
    requires Inv(c, s) && CommitOffset(s, s', stored, ok)
    ensures Inv(c, s')
  {
  }

  lemma StepKeepsInv(c: Config, w: nat, s: State, s': State)
    requires ValidConfig(c) && Inv(c, s) && Step(c, w, s, s') && (c.cleanEvents ==> w < DAY)
    ensures Inv(c, s')
  {
    if commit :| Attempt(w, s, s', commit) {
      SavingIsStoredOrNew(c, w, s);
      if s.phase.offset in s.tables.events {
        AttemptAgain(c, w, s, s', commit);
      } else {
        AttemptNew(c, w, s, s', commit);
      }
    } else if Append(s, s') {
      AppendKeepsInv(c, s, s');
    } else if Tick(s, s') {
      TickKeepsInv(c, s, s');
    } else if Fetch(c, s, s') {
      FetchKeepsInv(c, s, s');
    } else if CleanEvents(c, s, s') {
      CleanKeepsInv(c, s, s');
    } else if k :| MarkRead(s, s', k) {
      MarkReadKeepsInv(c, s, s', k);
    } else if Put(s, s') {
      PutKeepsInv(c, s, s');
    } else if CheckCache(s, s') {
      CheckKeepsInv(c, s, s');
    } else if Crash(s, s') {
      CrashKeepsInv(c, s, s');
    } else if Rewind(s, s') {
      RewindKeepsInv(c, s, s');
    } else {
      var stored, ok :| CommitOffset(s, s', stored, ok);
      OffsetKeepsInv(c, s, s', stored, ok);
    }
  }

  lemma InitInv(c: Config, s: State)
    requires Init(s)
    ensures Inv(c, s)
  {
  }

  lemma NextInv(c: Config, w: nat, run: seq<State>, n: nat)
    requires ValidConfig(c) && IsRun(c, w, run) && 0 < n < |run| && (c.cleanEvents ==> w < DAY) && Inv(c, run[n - 1])
    ensures Inv(c, run[n])
  {
    assert StepAt(c, w, run, n - 1);
    StepKeepsInv(c, w, run[n - 1], run[n]);
  }

  lemma {:induction false} RunKeepsInv(c: Config, w: nat, run: seq<State>, n: nat)
    requires ValidConfig(c) && IsRun(c, w, run) && n < |run| && (c.cleanEvents ==> w < DAY)
    ensures Inv(c, run[n])
  {
    if n == 0 {
      InitInv(c, run[0]);
    } else {
      RunKeepsInv(c, w, run, n - 1);
      NextInv(c, w, run, n);
    }
  }
}
