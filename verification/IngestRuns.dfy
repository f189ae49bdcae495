/** Runs of the ingestion put together step by step, and those that show what can go wrong. */
module IngestRuns {
  import opened EventTables
  import opened Integers
  import opened FlowControl
  import opened Ingest

  function Last(run: seq<State>): State
    requires run != []
  {
    run[|run| - 1]
  }

  lemma ExtendedRun(c: Config, w: nat, run: seq<State>, next: State)
    requires IsRun(c, w, run) && Step(c, w, run[|run| - 1], next)
    ensures IsRun(c, w, run + [next])
  {
    var longer := run + [next];
    forall n: nat | n + 1 < |longer| ensures StepAt(c, w, longer, n) {
      if n + 1 < |run| {
        assert StepAt(c, w, run, n);
      }
    }
  }

  ghost function Attempted(s: State, e: Event, commit: Commit): State
    requires s.phase.Saving?
  {
    var o := e.offset;
    var (t, r) := Save(s.tables, e, commit);
    s.(tables := t,
       full := Save(s.full, e, commit).0,
       journal := if o !in s.tables.events && o in t.events then s.journal + [o] else s.journal,
       highWater := if o in t.events then Max(s.highWater, o + 1) else s.highWater,
       phase := AfterSave(o, r, s.phase))
  }

  lemma AttemptedIsAttempt(c: Config, w: nat, s: State, e: Event, commit: Commit)
    requires s.phase.Saving? && s.clock <= s.phase.since + w && e.offset == s.phase.offset < |s.log|
    requires s.log[e.offset].parsed.Parsed? && e == EventOf(s, e.offset)
    ensures Step(c, w, s, Attempted(s, e, commit))
  {
    assert Attempt(w, s, Attempted(s, e, commit), commit);
  }

  /** A run begins at any time. */
  lemma Begin(c: Config, w: nat, clock: Instant) returns (run: seq<State>)
    ensures IsRun(c, w, run) && Last(run) == State([], clock, 0, 0, Idle, EMPTY, START, EMPTY, [], {}, 0, {})
  {
    run := [State([], clock, 0, 0, Idle, EMPTY, START, EMPTY, [], {}, 0, {})];
  }

  /** The run goes on with a step. */
  lemma Go(c: Config, w: nat, run: seq<State>, next: State) returns (longer: seq<State>)
    requires IsRun(c, w, run) && Step(c, w, Last(run), next)
    ensures IsRun(c, w, longer) && Last(longer) == next
  {
    ExtendedRun(c, w, run, next);
    longer := run + [next];
  }

  lemma Produce(c: Config, w: nat, run: seq<State>, m: Message) returns (longer: seq<State>)
    requires IsRun(c, w, run)
    ensures IsRun(c, w, longer) && Last(longer) == Last(run).(log := Last(run).log + [m])
  {
    var s := Last(run);
    assert Append(s, s.(log := s.log + [m]));
    longer := Go(c, w, run, s.(log := s.log + [m]));
  }

  lemma FetchNext(c: Config, w: nat, run: seq<State>) returns (longer: seq<State>)
    requires IsRun(c, w, run) && Last(run).phase == Idle && Last(run).position < |Last(run).log|
    requires Accepts(c, Last(run).log[Last(run).position], Last(run).clock)
    ensures IsRun(c, w, longer)
    ensures var s := Last(run); Last(longer) == s.(position := s.position + 1, phase := Saving(s.position, s.clock))
  {
    var s := Last(run);
    var next := s.(position := s.position + 1, phase := Saving(s.position, s.clock));
    assert Fetch(c, s, next);
    longer := Go(c, w, run, next);
  }

  ghost predicate CanAttempt(s: State, w: nat)
  {
    && s.phase.Saving? && s.clock <= s.phase.since + w && s.phase.offset < |s.log|
    && s.log[s.phase.offset].parsed.Parsed?
  }

  lemma TryToSave(c: Config, w: nat, run: seq<State>, commit: Commit) returns (longer: seq<State>)
    requires IsRun(c, w, run) && CanAttempt(Last(run), w)
    ensures IsRun(c, w, longer)
    ensures var s := Last(run); Last(longer) == Attempted(s, EventOf(s, s.phase.offset), commit)
  {
    var s := Last(run);
    AttemptedIsAttempt(c, w, s, EventOf(s, s.phase.offset), commit);
    longer := Go(c, w, run, Attempted(s, EventOf(s, s.phase.offset), commit));
  }

  /** A message to one user is saved under the next number of that user. */
  ghost predicate SavedFor(t: Tables, t': Tables, e: Event, u: Uid)
  {
    && Valid(t') && t'.events == t.events[e.offset := EventRow(e.createTime, e.payload)]
    && Head(t', u) == Head(t, u) + 1
    && t'.userEvents == t.userEvents[Key(u, Head(t, u) + 1) := UserEventRow(e.createTime, false, e.offset)]
  }

  lemma SaveForOne(t: Tables, e: Event, u: Uid)
    requires Valid(t) && e.offset !in t.events && e.to == [u] && 0 <= u && Head(t, u) < MAX_INT32
    ensures SavedFor(t, Save(t, e, CommittedButFailed).0, e, u)
  {
    SaveInserts(t, e, CommittedButFailed);
    var t1 := t.(events := t.events[e.offset := EventRow(e.createTime, e.payload)]);
    assert AllocateAll(t1, e.to[..0], e.createTime, e.offset) == Allocated(t1);
    assert Head(t1, u) == Head(t, u);
    if Key(u, Head(t, u) + 1) in t1.userEvents {
      assert false;
    }
    assert AllocateAll(t1, e.to, e.createTime, e.offset) == AllocateOne(t1, u, e.createTime, e.offset);
  }

  /** The next message, to one user, is fetched and saved; the answer is lost, the retry succeeds, the offset is committed. */
  lemma SaveNext(c: Config, w: nat, run: seq<State>, u: Uid) returns (longer: seq<State>)
    requires IsRun(c, w, run) && Last(run).phase == Idle && Last(run).position < |Last(run).log|
    requires Accepts(c, Last(run).log[Last(run).position], Last(run).clock)
    requires Valid(Last(run).tables) && Last(run).position !in Last(run).tables.events
    requires Last(run).log[Last(run).position].parsed.to == [u] && 0 <= u && Head(Last(run).tables, u) < MAX_INT32
    ensures IsRun(c, w, longer)
    ensures var s, s' := Last(run), Last(longer);
            && s'.log == s.log && s'.clock == s.clock && s'.flow == s.flow && s'.phase == Idle
            && s'.position == s'.committed == s.position + 1
            && SavedFor(s.tables, s'.tables, EventOf(s, s.position), u)
  {
    var s := Last(run);
    var o, e := s.position, EventOf(s, s.position);
    SaveForOne(s.tables, e, u);
    longer := FetchNext(c, w, run);
    longer := TryToSave(c, w, longer, CommittedButFailed);
    var stored := Last(longer);
    assert stored.phase == Saving(o, s.clock) && EventOf(stored, o) == e;
    SaveAgain(stored.tables, e, Committed);
    longer := TryToSave(c, w, longer, Committed);
    var committing := Last(longer);
    assert committing.phase == Committing(o);
    var done := committing.(committed := o + 1, phase := Idle);
    assert CommitOffset(committing, done, true, true);
    longer := Go(c, w, longer, done);
  }

  /** A new message is not too old. */
  lemma Recent(c: Config)
    requires ValidConfig(c)
    ensures DiscardAge(c) >= DAY
  {
    if c.cleanEvents {
      assert 7 * DAY <= c.ttlDays * DAY <= 100 * DAY;
    }
  }

  // ----- late saves -----

  /** A midnight; a message created then may be fetched until the time to live has passed, and is cleaned a day after that. */
  function Old(c: Config): Instant
  {
    c.midnight(0)
  }

  lemma AgeLimit(c: Config)
    requires ValidConfig(c) && c.cleanEvents
    ensures DiscardAge(c) == c.ttlDays * DAY
  {
    assert c.ttlDays * DAY <= 100 * DAY;
  }

  lemma CleanedADayLater(c: Config, w: nat, run: seq<State>) returns (longer: seq<State>)
    requires ValidConfig(c) && c.cleanEvents && IsRun(c, w, run) && Last(run).clock == Old(c) + c.ttlDays * DAY
    requires Valid(Last(run).tables)
    ensures IsRun(c, w, longer)
    ensures var s, s' := Last(run), Last(longer);
            s' == s.(clock := s.clock + DAY, tables := Clean(s.tables, Old(c)), cutoffs := s.cutoffs + {Old(c)})
    ensures Valid(Last(longer).tables)
  {
    var s := Last(run);
    var later := s.(clock := s.clock + DAY);
    assert Tick(s, later);
    longer := Go(c, w, run, later);
    assert later.clock - (c.ttlDays + 1) * DAY == Old(c);
    CleanKeepsValid(s.tables, Old(c));
    var cleaned := later.(tables := Clean(s.tables, Old(c)), cutoffs := s.cutoffs + {Old(c)});
    assert CleanEvents(c, later, cleaned);
    longer := Go(c, w, longer, cleaned);
  }

  // ----- a panic -----

  /** In every configuration and at any time: a message is saved, the answer is lost, and the retry cannot read the row back. */
  lemma PanicRun(c: Config, w: nat, clock: Instant) returns (run: seq<State>)
    requires ValidConfig(c)
    ensures IsRun(c, w, run) && Last(run).phase == Panicked(DuplicateKeyPanic)
  {
    Recent(c);
    run := Begin(c, w, clock);
    run := Produce(c, w, run, Message(clock, "", Parsed([1])));
    run := FetchNext(c, w, run);
    var e := EventOf(Last(run), 0);
    SaveForOne(EMPTY, e, 1);
    run := TryToSave(c, w, run, CommittedButFailed);
    assert EventOf(Last(run), 0) == e;
    SaveAgain(Last(run).tables, e, Interrupted);
    run := TryToSave(c, w, run, Interrupted);
  }
}
