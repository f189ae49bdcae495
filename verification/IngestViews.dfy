/** What the window queries and the pushes show over every run of the ingestion. */
module IngestViews {
  import opened EventTables
  import opened Integers
  import opened ReadStates
  import opened Windows
  import opened FlowControl
  import opened Ingest
  import opened IngestSafety
  import opened ExactlyOnce
  import opened IngestRuns
  import Always = IngestAlways

  // ----- the windows -----

  ghost predicate OpensAfter(cutoff: Instant, cutoffs: set<Instant>)
  {
    forall x | x in cutoffs :: x < cutoff
  }

  /** Cleaning is invisible in every window that opens after the latest cutoff, over every run that saves in time. */
  lemma CleaningInvisibleOverRuns(c: Config, w: nat, run: seq<State>, u: Uid, upTo: int, cutoff: Instant)
    requires ValidConfig(c) && IsRun(c, w, run) && InTime(c, w)
    requires OpensAfter(cutoff, run[|run| - 1].cutoffs)
    ensures var s := run[|run| - 1];
            && Head(s.tables, u) == Head(s.full, u)
            && CountUnread(s.tables, u, cutoff) == CountUnread(s.full, u, cutoff)
            && Reply(s.tables, u, upTo, cutoff) == Reply(s.full, u, upTo, cutoff)
  {
    RunKeepsInv(c, w, run, |run| - 1);
    var s := run[|run| - 1];
    forall k | k in s.full.userEvents && k !in s.tables.userEvents ensures s.full.userEvents[k].createTime <= cutoff - 1 {
      var o := s.full.userEvents[k].offset;
      assert Cleaned(s.tables.events, s.full.events, o);
      var x :| x in s.cutoffs && s.full.events[o].createTime <= x;
    }
    CleaningIsInvisible(s.tables, s.full, u, upTo, cutoff, cutoff - 1);
  }

  ghost predicate MonotoneLog(log: seq<Message>)
  {
    forall i, j :: 0 <= i < j < |log| ==> log[i].time <= log[j].time
  }

  /** What was cleaned lies before what is kept. */
  ghost predicate CleanedFirst(kept: map<Offset, EventRow>, stored: map<Offset, EventRow>)
  {
    forall o: Offset, p: Offset | Cleaned(kept, stored, o) && p in kept :: o < p
  }

  lemma AttemptKeepsCleanedFirst(c: Config, w: nat, s: State, s': State, commit: Commit)
    requires ValidConfig(c) && Inv(c, s) && Attempt(w, s, s', commit) && InTime(c, w)
    requires CleanedFirst(s.tables.events, s.full.events)
    ensures CleanedFirst(s'.tables.events, s'.full.events)
  {
    SavingIsStoredOrNew(c, w, s);
    var o := s.phase.offset;
    var e := EventOf(s, o);
    if o in s.tables.events {
      assert FromLog(s.log, s.full.events, o);
      SaveAgain(s.tables, e, commit);
      SaveAgain(s.full, e, commit);
    } else {
      AttemptEffect(s, e, commit);
      forall q: Offset, p: Offset | Cleaned(s'.tables.events, s'.full.events, q) && p in s'.tables.events ensures q < p {
        assert Cleaned(s.tables.events, s.full.events, q);
      }
    }
  }

  lemma CleanKeepsCleanedFirst(c: Config, s: State, s': State)
    requires ValidConfig(c) && Inv(c, s) && CleanEvents(c, s, s') && MonotoneLog(s.log)
    requires CleanedFirst(s.tables.events, s.full.events)
    ensures CleanedFirst(s'.tables.events, s'.full.events)
  {
    forall o: Offset, p: Offset | Cleaned(s'.tables.events, s'.full.events, o) && p in s'.tables.events ensures o < p {
      if !Cleaned(s.tables.events, s.full.events, o) {
        assert FromLog(s.log, s.full.events, o) && FromLog(s.log, s.full.events, p);
      }
    }
  }

  lemma OtherStepsKeepEvents(c: Config, w: nat, s: State, s': State)
    requires Step(c, w, s, s') && !(exists commit :: Attempt(w, s, s', commit)) && !CleanEvents(c, s, s')
    ensures s'.tables.events == s.tables.events && s'.full.events == s.full.events
  {
  }

  lemma StepKeepsCleanedFirst(c: Config, w: nat, s: State, s': State)
    requires ValidConfig(c) && Inv(c, s) && Step(c, w, s, s') && InTime(c, w) && MonotoneLog(s.log)
    requires CleanedFirst(s.tables.events, s.full.events)
    ensures CleanedFirst(s'.tables.events, s'.full.events)
  {
    if commit :| Attempt(w, s, s', commit) {
      AttemptKeepsCleanedFirst(c, w, s, s', commit);
    } else if CleanEvents(c, s, s') {
      CleanKeepsCleanedFirst(c, s, s');
    } else {
      OtherStepsKeepEvents(c, w, s, s');
    }
  }

  lemma LogGrows(c: Config, w: nat, s: State, s': State)
    requires Step(c, w, s, s')
    ensures s.log <= s'.log
  {
  }

  lemma EarlierLog(c: Config, w: nat, run: seq<State>, n: nat)
    requires IsRun(c, w, run) && n + 1 < |run| && MonotoneLog(run[n + 1].log)
    ensures MonotoneLog(run[n].log)
  {
    assert StepAt(c, w, run, n);
    LogGrows(c, w, run[n], run[n + 1]);
  }

  lemma NextCleanedFirst(c: Config, w: nat, run: seq<State>, n: nat)
    requires ValidConfig(c) && IsRun(c, w, run) && n + 1 < |run| && InTime(c, w) && MonotoneLog(run[n].log)
    requires CleanedFirst(run[n].tables.events, run[n].full.events)
    ensures CleanedFirst(run[n + 1].tables.events, run[n + 1].full.events)
  {
    RunKeepsInv(c, w, run, n);
    assert StepAt(c, w, run, n);
    StepKeepsCleanedFirst(c, w, run[n], run[n + 1]);
  }

  lemma {:induction false} RunKeepsCleanedFirst(c: Config, w: nat, run: seq<State>, n: nat)
    requires ValidConfig(c) && IsRun(c, w, run) && n < |run| && InTime(c, w) && MonotoneLog(run[n].log)
    ensures CleanedFirst(run[n].tables.events, run[n].full.events)
  {
    if n > 0 {
      EarlierLog(c, w, run, n - 1);
      RunKeepsCleanedFirst(c, w, run, n - 1);
      NextCleanedFirst(c, w, run, n - 1);
    }
  }

  /** A number between two of the user's, the first of which is kept, belongs to an event that is kept and not older. */
  lemma BetweenIsKept(log: seq<Message>, t: Tables, full: Tables, k: Key, l: Key, m: Key)
    requires TablesInv(t, full) && k.uid == l.uid == m.uid && k.seqNo <= l.seqNo <= m.seqNo
    requires k in t.userEvents && m in t.userEvents && CleanedFirst(t.events, full.events)
    ensures l in t.userEvents && t.userEvents[k].offset <= t.userEvents[l].offset
  {
    assert m.seqNo <= Head(t, m.uid) == Head(full, m.uid);
    assert k in full.userEvents && l in full.userEvents;
    var o, p := full.userEvents[k].offset, full.userEvents[l].offset;
    assert o <= p && o in t.events && p in full.events;
    assert !Cleaned(t.events, full.events, p);
  }

  /** Rows take their create times from the log, so they follow the offsets. */
  lemma NotOlder(log: seq<Message>, t: Tables, full: Tables, k: Key, l: Key)
    requires Valid(t) && Twin(t, full) && MonotoneLog(log) && k in t.userEvents && l in t.userEvents
    requires forall o | o in full.events :: FromLog(log, full.events, o)
    requires t.userEvents[k].offset <= t.userEvents[l].offset
    ensures t.userEvents[k].createTime <= t.userEvents[l].createTime
  {
    var o, p := t.userEvents[k].offset, t.userEvents[l].offset;
    assert o in t.events && p in t.events;
    assert FromLog(log, full.events, o) && FromLog(log, full.events, p);
  }

  lemma WindowIsConvex(log: seq<Message>, t: Tables, full: Tables, u: Uid, cutoff: Instant)
    requires TablesInv(t, full) && MonotoneLog(log) && CleanedFirst(t.events, full.events)
    requires forall o | o in full.events :: FromLog(log, full.events, o)
    ensures Convex(t, u, cutoff)
  {
    forall x, y, z | x <= y <= z && InWindow(t, u, x, cutoff) && InWindow(t, u, z, cutoff) ensures InWindow(t, u, y, cutoff) {
      BetweenIsKept(log, t, full, Key(u, x), Key(u, y), Key(u, z));
      NotOlder(log, t, full, Key(u, x), Key(u, y));
    }
  }

  lemma RunWindowIsConvex(c: Config, w: nat, run: seq<State>, u: Uid, cutoff: Instant)
    requires ValidConfig(c) && IsRun(c, w, run) && InTime(c, w) && MonotoneLog(run[|run| - 1].log)
    ensures Valid(run[|run| - 1].tables) && Convex(run[|run| - 1].tables, u, cutoff)
  {
    var s := run[|run| - 1];
    RunKeepsInv(c, w, run, |run| - 1);
    RunKeepsCleanedFirst(c, w, run, |run| - 1);
    WindowIsConvex(s.log, s.tables, s.full, u, cutoff);
  }

  /**
   Read states end to end. When create times do not decrease along the log, then in every run
   that saves in time the reply for any window of any user is at most one block (below the largest
   32-bit number), and the client ends up with exactly the read state of every row of the window.
   */
  lemma ReadStatesEndToEnd(c: Config, w: nat, run: seq<State>, u: Uid, upTo: int, cutoff: Instant,
                           blocks: seq<Block>, local: map<int, bool>)
    requires ValidConfig(c) && IsRun(c, w, run) && InTime(c, w) && MonotoneLog(run[|run| - 1].log)
    requires EncodesAll(blocks, Reply(run[|run| - 1].tables, u, upTo, cutoff))
    ensures var s := run[|run| - 1];
            && Contiguous(SelectSeqs(s.tables, u, upTo, cutoff))
            && (Head(s.tables, u) < MAX_INT32 ==> |blocks| <= 1)
            && Caught(s.tables, u, upTo, cutoff, local, ApplyPairs(local, Pairs(DecodeAll(blocks))))
  {
    var s := run[|run| - 1];
    RunWindowIsConvex(c, w, run, u, cutoff);
    ConvexIsContiguous(s.tables, u, upTo, cutoff);
    ConvexWindowRoundTrip(s.tables, u, upTo, cutoff, blocks, local);
    if Head(s.tables, u) < MAX_INT32 {
      AtMostOneBlock(s.tables, u, upTo, cutoff);
    }
  }

  /** The user's rows, in the order of their numbers, have the create times `times`. */
  ghost predicate RowTimes(t: Tables, u: Uid, times: seq<Instant>)
  {
    && Head(t, u) == |times|
    && forall s :: if 1 <= s <= |times| then Key(u, s) in t.userEvents && t.userEvents[Key(u, s)].createTime == times[s - 1]
                   else Key(u, s) !in t.userEvents
  }

  lemma RowTimesGrow(t: Tables, t': Tables, e: Event, u: Uid, times: seq<Instant>)
    requires RowTimes(t, u, times) && SavedFor(t, t', e, u)
    ensures RowTimes(t', u, times + [e.createTime])
  {
  }

  /** The next message is saved, to user 1. */
  lemma SaveOneMore(c: Config, w: nat, run: seq<State>, times: seq<Instant>) returns (longer: seq<State>)
    requires IsRun(c, w, run) && Last(run).phase == Idle && Last(run).position < |Last(run).log|
    requires Accepts(c, Last(run).log[Last(run).position], Last(run).clock)
    requires Valid(Last(run).tables) && forall o | o in Last(run).tables.events :: o < Last(run).position
    requires Last(run).log[Last(run).position].parsed.to == [1] && RowTimes(Last(run).tables, 1, times) && |times| < MAX_INT32
    ensures IsRun(c, w, longer)
    ensures var s, s' := Last(run), Last(longer);
            && s'.log == s.log && s'.clock == s.clock && s'.phase == Idle && s'.position == s.position + 1
            && Valid(s'.tables) && RowTimes(s'.tables, 1, times + [s.log[s.position].time])
            && forall o | o in s'.tables.events :: o < s'.position
  {
    longer := SaveNext(c, w, run, 1);
    RowTimesGrow(Last(run).tables, Last(longer).tables, EventOf(Last(run), Last(run).position), 1, times);
  }

  /** Three messages to user 1, the second one created before the first. */
  lemma ThreeSaved(c: Config, w: nat, clock: Instant) returns (run: seq<State>)
    requires ValidConfig(c)
    ensures IsRun(c, w, run) && Valid(Last(run).tables) && RowTimes(Last(run).tables, 1, [clock, clock - 2, clock])
  {
    Recent(c);
    var m0, m1 := Message(clock, "", Parsed([1])), Message(clock - 2, "", Parsed([1]));
    run := Begin(c, w, clock);
    run := Produce(c, w, run, m0);
    run := Produce(c, w, run, m1);
    run := Produce(c, w, run, m0);
    assert Last(run).log == [m0, m1, m0];
    run := SaveOneMore(c, w, run, []);
    run := SaveOneMore(c, w, run, [clock]);
    run := SaveOneMore(c, w, run, [clock, clock - 2]);
  }

  /**
   Without create times in log order the client can be wrong, in every configuration: a run after which a window
   holds numbers 3 and 1 but not 2.
   */
  lemma GappedRun(c: Config, w: nat, clock: Instant, blocks: seq<Block>) returns (run: seq<State>)
    requires ValidConfig(c)
    ensures IsRun(c, w, run) && SelectSeqs(Last(run).tables, 1, 3, clock - 1) == [3, 1]
    ensures EncodesAll(blocks, Reply(Last(run).tables, 1, 3, clock - 1)) ==>
              !AlwaysCaught(Last(run).tables, 1, 3, clock - 1, blocks)
  {
    run := ThreeSaved(c, w, clock);
    var t := Last(run).tables;
    assert SelectSeqs(t, 1, 1, clock - 1) == [1];
    assert SelectSeqs(t, 1, 2, clock - 1) == [1];
    var seqs := SelectSeqs(t, 1, 3, clock - 1);
    assert seqs == [3, 1];
    if EncodesAll(blocks, Reply(t, 1, 3, clock - 1)) {
      WindowRoundTripIff(t, 1, 3, clock - 1, blocks);
      assert seqs[1] != seqs[0] - 1;
    }
  }

  // ----- the pushes -----

  /**
   Pushes in every run, however late messages are saved: since the process started, the heads pushed for
   a user grow and are at least a second apart, none exceeds the stored head, every put is pushed or
   waiting, and the largest put is the waiting head or else the last one pushed.
   */
  lemma PushesOverRuns(c: Config, w: nat, run: seq<State>)
    requires IsRun(c, w, run)
    ensures var s := run[|run| - 1];
            && Spaced(s.flow.pushes)
            && (forall u :: Conserves(s.flow, u))
            && (forall i, u :: 0 <= i < |s.flow.pushes| && u in s.flow.pushes[i].entries ==>
                  s.flow.pushes[i].entries[u].headSeq <= Head(s.tables, u))
  {
    Always.RunKeeps(c, w, run, |run| - 1);
    var s := run[|run| - 1];
    forall i, u | 0 <= i < |s.flow.pushes| && u in s.flow.pushes[i].entries
      ensures s.flow.pushes[i].entries[u].headSeq <= Head(s.tables, u)
    {
      assert Conserves(s.flow, u);
    }
  }

  /**
   What the filter refuses for its age: with cleaning on, what is older than the time to live. With
   cleaning off the age limit was meant to be the largest 32-bit number of days; in 64-bit nanoseconds
   it wraps around to about 166 years, which still is a positive limit.
   */
  lemma FilterAge(c: Config, m: Message, now: Instant)
    requires ValidConfig(c) && |m.value| <= c.valueMaxBytes && m.parsed.Parsed?
    ensures Accepts(c, m, now) <==>
            now - m.time <= if c.cleanEvents then c.ttlDays * DAY else 5_235_207_429_329_846_272
    ensures MAX_INT32 * DAY != 5_235_207_429_329_846_272
  {
    var days := if c.cleanEvents then c.ttlDays else 0;
    assert 0 <= days * DAY <= 100 * DAY;
  }
}
