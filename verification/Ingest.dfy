/**
 The ingestion of events as a step machine (`cluster/eventstore.go`): a single consumer fetches
 from one Kafka partition, filters, saves in a transaction, puts the new heads into the cache and
 commits the offset. It may crash, be handed messages again, and see commits whose outcome is
 unknown. Meanwhile a cleaner deletes old events, clients mark events as read, and time passes.
 */
module Ingest {
  import opened EventTables
  import opened Integers
  import opened HeadCache
  import opened FlowControl

  /** What `json.Unmarshal` makes of a value. */
  datatype Parsed = Malformed | Parsed(to: seq<Uid>)

  datatype Message = Message(time: Instant, value: string, parsed: Parsed)

  datatype Config = Config(cleanEvents: bool, ttlDays: nat, valueMaxBytes: nat, midnight: Instant -> Instant)

  /** The time to live is in range when cleaning is on. Local midnight is a floor. */
  ghost predicate ValidConfig(c: Config)
  {
    && (c.cleanEvents ==> 7 <= c.ttlDays <= 100)
    && forall i :: c.midnight(i) <= i && c.midnight(c.midnight(i)) == c.midnight(i)
  }

  /** Two's complement wrap-around of 64-bit arithmetic. */
  function Int64(x: int): int
  {
    (x + 0x8000_0000_0000_0000) % 0x1_0000_0000_0000_0000 - 0x8000_0000_0000_0000
  }

  /** `delEventsTtlDays` in nanoseconds: the largest 32-bit number of days, wrapped, when cleaning is off. */
  function DiscardAge(c: Config): int
  {
    Int64((if c.cleanEvents then c.ttlDays else MAX_INT32) * DAY)
  }

  /** `decodeKafkaMsg`: small enough, well formed, and not too old. */
  predicate Accepts(c: Config, m: Message, now: Instant)
  {
    |m.value| <= c.valueMaxBytes && m.parsed.Parsed? && now - m.time <= DiscardAge(c)
  }

  /** `GetDayBefore`: the local midnight `days + 1` days back. */
  function DayBefore(c: Config, days: nat, now: Instant): Instant
  {
    c.midnight(now - (days + 1) * DAY)
  }

  /** Where the consumer stands. */
  datatype Phase =
    | Idle
    | Saving(offset: Offset, since: Instant)          // passed the filter at `since`
    | Putting(offset: Offset, seqMap: map<Uid, int>)  // saved, heads not yet in the cache
    | Committing(offset: Offset)                      // offset not yet committed to Kafka
    | Panicked(cause: Panic)                          // the process dies

  /** A save reported a duplicate key; or a head to be put was not above the cached one. */
  datatype Panic = DuplicateKeyPanic | HeadPanic

  /**
   `full`, `journal`, `rejected`, `highWater` and `cutoffs` are history: the tables as if nothing was
   ever cleaned, the offsets in the order their rows were inserted, the offsets the filter refused,
   the first offset neither saved nor refused so far, and the cutoffs cleaned at.
   */
  datatype State = State(
    log: seq<Message>,
    clock: Instant,
    committed: nat,
    position: nat,
    phase: Phase,
    tables: Tables,
    flow: Flow,
    full: Tables,
    journal: seq<Offset>,
    rejected: set<Offset>,
    highWater: nat,
    cutoffs: set<Instant>)

  ghost predicate Init(s: State)
  {
    s == State([], s.clock, 0, 0, Idle, EMPTY, START, EMPTY, [], {}, 0, {})
  }

  function EventOf(s: State, o: Offset): Event
    requires o < |s.log| && s.log[o].parsed.Parsed?
  {
    Event(o, s.log[o].time, s.log[o].value, s.log[o].parsed.to)
  }

  function Max(a: nat, b: nat): nat
  {
    if a < b then b else a
  }

  ghost predicate Append(s: State, s': State)
  {
    exists m :: s' == s.(log := s.log + [m])
  }

  ghost predicate Tick(s: State, s': State)
  {
    s.clock <= s'.clock && s' == s.(clock := s'.clock)
  }

  ghost predicate Fetch(c: Config, s: State, s': State)
  {
    && s.phase == Idle && s.position < |s.log|
    && var o := s.position;
    && s' == if Accepts(c, s.log[o], s.clock)
             then s.(position := o + 1, phase := Saving(o, s.clock))
             else s.(position := o + 1, rejected := s.rejected + {o}, highWater := Max(s.highWater, o + 1))
  }

  function AfterSave(o: Offset, r: SaveResult, saving: Phase): Phase
  {
    match r
    case Saved(seqMap) => if seqMap != map[] then Putting(o, seqMap) else Committing(o)
    case Failed(DuplicateKey) => Panicked(DuplicateKeyPanic)
    case Failed(_) => saving
  }

  /** One attempt to save, made at most `w` after the message passed the filter. */
  ghost predicate Attempt(w: nat, s: State, s': State, commit: Commit)
  {
    && s.phase.Saving? && s.clock <= s.phase.since + w
    && var o := s.phase.offset;
    && o < |s.log| && s.log[o].parsed.Parsed?
    && var (t, r) := Save(s.tables, EventOf(s, o), commit);
    && var inserted := o !in s.tables.events && o in t.events;
    && s' == s.(tables := t,
                full := Save(s.full, EventOf(s, o), commit).0,
                journal := if inserted then s.journal + [o] else s.journal,
                highWater := if o in t.events then Max(s.highWater, o + 1) else s.highWater,
                phase := AfterSave(o, r, s.phase))
  }

  ghost predicate Put(s: State, s': State)
  {
    && s.phase.Putting?
    && s' == if PutPanics(s.flow.cache, s.phase.seqMap) then s.(phase := Panicked(HeadPanic))
             else s.(flow := FlowPut(s.flow, s.phase.seqMap, s.clock), phase := Committing(s.phase.offset))
  }

  /** The broker may have stored the offset even when the call failed. */
  ghost predicate CommitOffset(s: State, s': State, stored: bool, ok: bool)
  {
    && s.phase.Committing? && (ok ==> stored)
    && s' == s.(committed := if stored then s.phase.offset + 1 else s.committed,
                phase := if ok then Idle else s.phase)
  }

  /** The reader falls back to a committed offset, or further, as after a rebalance. */
  ghost predicate Rewind(s: State, s': State)
  {
    s'.position <= s.committed && s' == s.(position := s'.position)
  }

  ghost predicate Crash(s: State, s': State)
  {
    s' == s.(position := s.committed, phase := Idle, flow := START)
  }

  ghost predicate CleanEvents(c: Config, s: State, s': State)
  {
    && c.cleanEvents
    && var cutoff := DayBefore(c, c.ttlDays, s.clock);
    && s' == s.(tables := Clean(s.tables, cutoff), cutoffs := s.cutoffs + {cutoff})
  }

  ghost predicate MarkRead(s: State, s': State, k: Key)
  {
    s' == s.(tables := SetRead(s.tables, k), full := SetRead(s.full, k))
  }

  ghost predicate CheckCache(s: State, s': State)
  {
    s' == s.(flow := FlowCheck(s.flow, s.clock))
  }

  ghost predicate Step(c: Config, w: nat, s: State, s': State)
  {
    || Append(s, s') || Tick(s, s') || Fetch(c, s, s')
    || (exists commit :: Attempt(w, s, s', commit))
    || Put(s, s') || (exists stored, ok :: CommitOffset(s, s', stored, ok))
    || Rewind(s, s') || Crash(s, s') || CleanEvents(c, s, s') || (exists k :: MarkRead(s, s', k)) || CheckCache(s, s')
  }

  ghost predicate StepAt(c: Config, w: nat, run: seq<State>, n: nat)
    requires n + 1 < |run|
  {
    Step(c, w, run[n], run[n + 1])
  }

  /** A run in which every attempt to save is made at most `w` after its message passed the filter. */
  ghost predicate IsRun(c: Config, w: nat, run: seq<State>)
  {
    && run != [] && Init(run[0])
    && forall n: nat | n + 1 < |run| :: StepAt(c, w, run, n)
  }

  // ----- the invariant -----

  /** `t` holds exactly the rows of `full` whose event it still has. */
  ghost predicate Twin(t: Tables, full: Tables)
  {
    && t.userSeq == full.userSeq
    && (forall o | o in t.events :: o in full.events && t.events[o] == full.events[o])
    && (forall k :: k in t.userEvents <==> k in full.userEvents && full.userEvents[k].offset in t.events)
    && (forall k | k in t.userEvents :: t.userEvents[k] == full.userEvents[k])
  }

  /** Without cleaning, the numbers of each user are exactly 1 to the head. */
  ghost predicate Complete(full: Tables)
  {
    forall k: Key :: 1 <= k.seqNo <= Head(full, k.uid) ==> k in full.userEvents
  }

  /** The numbers of each user follow the offsets. */
  ghost predicate Ordered(t: Tables)
  {
    forall k, l | k in t.userEvents && l in t.userEvents && k.uid == l.uid && k.seqNo <= l.seqNo ::
      t.userEvents[k].offset <= t.userEvents[l].offset
  }

  ghost predicate TablesInv(t: Tables, full: Tables)
  {
    Valid(t) && Valid(full) && Twin(t, full) && Complete(full) && Ordered(full)
  }

  /** The stored row of an offset is that of the log. */
  ghost predicate FromLog(log: seq<Message>, stored: map<Offset, EventRow>, o: Offset)
    requires o in stored
  {
    && o < |log|
    && log[o].parsed.Parsed?
    && stored[o] == EventRow(log[o].time, log[o].value)
  }

  ghost predicate Increasing(journal: seq<Offset>)
  {
    forall i, j :: 0 <= i < j < |journal| ==> journal[i] < journal[j]
  }

  /** Everything below the high water mark was stored or refused, and stored only once, in order. */
  ghost predicate JournalInv(log: seq<Message>, stored: map<Offset, EventRow>, journal: seq<Offset>,
                             rejected: set<Offset>, highWater: nat)
  {
    && highWater <= |log|
    && Increasing(journal)
    && (forall o :: o in journal <==> o in stored)
    && (forall o | o in stored :: o < highWater && FromLog(log, stored, o))
    && (forall o: nat | o < highWater :: o in stored || o in rejected)
  }

  ghost predicate RejectedInv(c: Config, log: seq<Message>, rejected: set<Offset>, highWater: nat, clock: Instant)
  {
    forall o | o in rejected :: o < highWater && o < |log| && !Accepts(c, log[o], clock)
  }

  predicate Cleaned(kept: map<Offset, EventRow>, stored: map<Offset, EventRow>, o: Offset)
  {
    o in stored && o !in kept
  }

  ghost predicate CleanedInv(c: Config, kept: map<Offset, EventRow>, stored: map<Offset, EventRow>,
                             cutoffs: set<Instant>, clock: Instant)
  {
    && (forall o | Cleaned(kept, stored, o) :: exists x | x in cutoffs :: stored[o].createTime <= x)
    && (forall x | x in cutoffs :: c.cleanEvents && x + (c.ttlDays + 1) * DAY <= clock)
  }

  ghost predicate PhaseInv(c: Config, s: State)
  {
    && s.committed <= s.highWater
    && match s.phase
       case Idle => s.position <= s.highWater
       case Saving(o, since) =>
         && o < |s.log| && o <= s.highWater && s.position <= Max(s.highWater, o + 1)
         && since <= s.clock && Accepts(c, s.log[o], since) && o !in s.rejected
       case Putting(o, _) => o < s.highWater && s.position <= s.highWater
       case Committing(o) => o < s.highWater && s.position <= s.highWater
       case Panicked(cause) => cause == DuplicateKeyPanic
  }

  ghost predicate BelowHeads(flow: Flow, t: Tables, clock: Instant)
  {
    Steady(flow, clock) && forall u :: LargestPut(flow.puts, u) <= Head(t, u)
  }

  /** Nothing above a stored head was put; heads about to be put are larger than any put before. */
  ghost predicate FlowInv(flow: Flow, phase: Phase, t: Tables, clock: Instant)
  {
    match phase
    case Putting(_, seqMap) =>
      && BelowHeads(flow, t, clock)
      && forall u | u in seqMap :: LargestPut(flow.puts, u) < seqMap[u] == Head(t, u)
    case _ => BelowHeads(flow, t, clock)
  }

  ghost predicate Inv(c: Config, s: State)
  {
    match s
    case State(log, clock, _, _, phase, tables, flow, full, journal, rejected, highWater, cutoffs) =>
      && TablesInv(tables, full)
      && JournalInv(log, full.events, journal, rejected, highWater)
      && RejectedInv(c, log, rejected, highWater, clock)
      && CleanedInv(c, tables.events, full.events, cutoffs, clock)
      && PhaseInv(c, s)
      && FlowInv(flow, phase, tables, clock)
  }
}
