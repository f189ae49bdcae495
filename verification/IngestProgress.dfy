/** What an attempt to save achieves in every run of the ingestion, and that the heads it saved are announced. */
module IngestProgress {
  import opened EventTables
  import opened FlowControl
  import opened Ingest
  import opened IngestRuns
  import Always = IngestAlways
  import Safety = IngestSafety

  // ----- one attempt -----

  /** The save is over: what is left is to put the heads and to commit the offset. */
  predicate Passed(phase: Phase)
  {
    phase.Putting? || phase.Committing?
  }

  /** What an attempt at offset `o` with the given outcome of the commit leads to, when the message fits or is stored. */
  ghost predicate Achieves(s: State, s': State, o: Offset, commit: Commit, fits: bool)
  {
    && (Passed(s'.phase) <==> commit == Committed && fits)
    && (o in s'.tables.events <==> o in s.tables.events || ((commit == Committed || commit == CommittedButFailed) && fits))
    && (!Passed(s'.phase) ==> s'.phase == s.phase || s'.phase == Panicked(DuplicateKeyPanic))
  }

  /** The message being saved is stored already, or its recipients have numbers left. */
  ghost predicate CanStore(s: State)
  {
    && s.phase.Saving? && s.phase.offset < |s.log| && s.log[s.phase.offset].parsed.Parsed?
    && (s.phase.offset in s.tables.events || Fits(s.tables, s.log[s.phase.offset].parsed.to))
  }

  /** The step to state `n` is an attempt to save. */
  ghost predicate AttemptAt(w: nat, run: seq<State>, n: nat, commit: Commit)
    requires 0 < n < |run|
    ensures AttemptAt(w, run, n, commit) ==> run[n - 1].phase.Saving?
  {
    Attempt(w, run[n - 1], run[n], commit)
  }

  lemma AgainAchieves(w: nat, s: State, s': State, commit: Commit)
    requires Attempt(w, s, s', commit) && s.phase.offset in s.tables.events
    requires SameEvent(s.tables.events[s.phase.offset], EventOf(s, s.phase.offset))
    ensures Achieves(s, s', s.phase.offset, commit, true)
  {
    SaveAgain(s.tables, EventOf(s, s.phase.offset), commit);
  }

  lemma NewAchieves(w: nat, s: State, s': State, commit: Commit)
    requires Attempt(w, s, s', commit) && s.phase.offset !in s.tables.events && Valid(s.tables)
    ensures Achieves(s, s', s.phase.offset, commit, CanStore(s))
  {
    var e := EventOf(s, s.phase.offset);
    SaveSucceedsIff(s.tables, e, commit);
    Always.StoresOrNot(s.tables, e, commit);
  }

  /**
   In every run, an attempt gets its message past the save exactly if the commit goes through and the message is
   stored already or its recipients have numbers left. It stores a new message exactly if they have and the database
   commits, also when the answer is lost. Otherwise the consumer goes on trying, or panics.
   */
  lemma AttemptIff(c: Config, w: nat, run: seq<State>, n: nat, commit: Commit)
    requires IsRun(c, w, run) && 0 < n < |run| && AttemptAt(w, run, n, commit)
    ensures Achieves(run[n - 1], run[n], run[n - 1].phase.offset, commit, CanStore(run[n - 1]))
  {
    Always.RunKeeps(c, w, run, n - 1);
    var s := run[n - 1];
    if s.phase.offset in s.tables.events {
      assert FromLog(s.log, s.tables.events, s.phase.offset);
      AgainAchieves(w, s, run[n], commit);
    } else {
      NewAchieves(w, s, run[n], commit);
    }
  }

  // ----- the heads of a save are put before its offset is committed -----

  /** An attempt is told that the save succeeded, with the new heads `m`. */
  ghost predicate Succeeds(w: nat, s: State, s': State, m: map<Uid, int>)
  {
    && s.phase.Saving? && Attempt(w, s, s', Committed)
    && Save(s.tables, EventOf(s, s.phase.offset), Committed).1 == Saved(m)
  }

  ghost predicate SucceedsAt(w: nat, run: seq<State>, i: nat, m: map<Uid, int>)
    requires 0 < i < |run|
  {
    Succeeds(w, run[i - 1], run[i], m)
  }

  /** The heads `m` go into the cache. */
  ghost predicate Puts(s: State, s': State, m: map<Uid, int>)
  {
    s'.flow.puts == s.flow.puts + [PutRecord(s.clock, m)]
  }

  ghost predicate PutBetween(run: seq<State>, i: nat, j: nat, m: map<Uid, int>)
    requires j < |run|
  {
    exists n :: i < n <= j && Puts(run[n - 1], run[n], m)
  }

  ghost predicate CrashBetween(run: seq<State>, i: nat, j: nat)
    requires j < |run|
  {
    exists n :: i < n <= j && Crash(run[n - 1], run[n])
  }

  /** The offset that was saved at `i` is committed, or the next message can be fetched. */
  predicate GoesOn(run: seq<State>, i: nat, j: nat)
    requires i < |run| && j < |run|
  {
    run[j].phase == Idle || run[j].committed != run[i].committed
  }

  lemma StepFromPutting(c: Config, w: nat, s: State, s': State)
    requires Always.Always(c, s) && s.phase.Putting? && Step(c, w, s, s') && !Crash(s, s')
    ensures (s'.phase == s.phase && s'.committed == s.committed) || Puts(s, s', s.phase.seqMap)
  {
    if Put(s, s') {
      Safety.PutFlow(s.flow, s.phase, s.tables, s.clock);
    }
  }

  /** The heads `m` saved at step `i` are still to be put, and the offset to be committed. */
  predicate Pending(s: State, o: Offset, m: map<Uid, int>, committed: nat)
  {
    s.phase == Putting(o, m) && s.committed == committed
  }

  lemma SavedIsPending(w: nat, s: State, s': State, m: map<Uid, int>)
    requires Succeeds(w, s, s', m) && m != map[]
    ensures Pending(s', s.phase.offset, m, s'.committed)
  {
  }

  lemma {:induction false} StillPutting(c: Config, w: nat, run: seq<State>, i: nat, j: nat, o: Offset, m: map<Uid, int>)
    requires IsRun(c, w, run) && i <= j < |run| && Pending(run[i], o, m, run[i].committed)
    ensures CrashBetween(run, i, j) || PutBetween(run, i, j, m) || Pending(run[j], o, m, run[i].committed)
  {
    if i < j {
      StillPutting(c, w, run, i, j - 1, o, m);
      if Pending(run[j - 1], o, m, run[i].committed) && !Crash(run[j - 1], run[j]) {
        Always.RunKeeps(c, w, run, j - 1);
        assert StepAt(c, w, run, j - 1);
        StepFromPutting(c, w, run[j - 1], run[j]);
      }
    }
  }

  /**
   In every run, once a save was told to have succeeded with some heads: unless the process crashes, the consumer
   neither commits the offset nor goes on to the next message before those heads were put into the cache.
   */
  lemma PutBeforeCommit(c: Config, w: nat, run: seq<State>, i: nat, j: nat, m: map<Uid, int>)
    requires IsRun(c, w, run) && 0 < i <= j < |run| && SucceedsAt(w, run, i, m) && m != map[] && GoesOn(run, i, j)
    ensures CrashBetween(run, i, j) || PutBetween(run, i, j, m)
  {
    SavedIsPending(w, run[i - 1], run[i], m);
    StillPutting(c, w, run, i, j, run[i - 1].phase.offset, m);
  }

  // ----- the stored heads are announced -----

  /** The head of the user is in the cache, or was pushed, or is about to be put. */
  ghost predicate Announced(s: State, u: Uid)
  {
    LargestPut(s.flow.puts, u) == Head(s.tables, u) || (s.phase.Putting? && u in s.phase.seqMap)
  }

  /** The database stored the message and the consumer does not know it. */
  predicate LostAnswer(s: State, s': State)
  {
    s.phase.Saving? && s'.phase.Saving? && s.phase.offset !in s.tables.events && s.phase.offset in s'.tables.events
  }

  /** A save that raises a user's head either reports that head, or its answer is lost. */
  lemma Raised(t: Tables, e: Event, commit: Commit, u: Uid)
    requires Valid(t) && e.offset !in t.events
    ensures var (t', r) := Save(t, e, commit);
            && Head(t, u) <= Head(t', u) && r != Failed(DuplicateKey)
            && (Head(t, u) == Head(t', u) ==> r.Saved? ==> u !in r.seqMap)
            && (Head(t, u) != Head(t', u) ==> e.offset in t'.events && (r.Saved? ==> u in r.seqMap))
  {
    SaveInserts(t, e, commit);
    OccurrencesPositive(e.to, u);
  }

  lemma AttemptAnnounces(c: Config, w: nat, s: State, s': State, commit: Commit, u: Uid)
    requires Always.Always(c, s) && Attempt(w, s, s', commit)
    ensures Head(s'.tables, u) == Head(s.tables, u) ==> (Announced(s', u) <==> Announced(s, u))
    ensures Head(s'.tables, u) != Head(s.tables, u) ==> (Announced(s', u) <==> !LostAnswer(s, s'))
  {
    var e := EventOf(s, s.phase.offset);
    assert LargestPut(s.flow.puts, u) <= Head(s.tables, u);
    if e.offset in s.tables.events {
      assert FromLog(s.log, s.tables.events, e.offset);
      SaveAgain(s.tables, e, commit);
    } else {
      Raised(s.tables, e, commit, u);
    }
  }

  lemma PutAnnounces(c: Config, s: State, s': State, u: Uid)
    requires Always.Always(c, s) && Put(s, s')
    ensures Head(s'.tables, u) == Head(s.tables, u) && (Announced(s', u) <==> Announced(s, u))
  {
    Safety.PutFlow(s.flow, s.phase, s.tables, s.clock);
    assert s'.flow.puts[..|s.flow.puts|] == s.flow.puts;
  }

  lemma OthersAnnounce(c: Config, w: nat, s: State, s': State, u: Uid)
    requires Step(c, w, s, s') && !Crash(s, s') && !Put(s, s') && forall commit :: !Attempt(w, s, s', commit)
    ensures Head(s'.tables, u) == Head(s.tables, u) && (Announced(s', u) <==> Announced(s, u))
  {
  }

  lemma StepAnnounces(c: Config, w: nat, s: State, s': State, u: Uid)
    requires Always.Always(c, s) && Step(c, w, s, s') && !Crash(s, s')
    ensures Head(s'.tables, u) == Head(s.tables, u) ==> (Announced(s', u) <==> Announced(s, u))
    ensures Head(s'.tables, u) != Head(s.tables, u) ==> (Announced(s', u) <==> !LostAnswer(s, s'))
  {
    if commit :| Attempt(w, s, s', commit) {
      AttemptAnnounces(c, w, s, s', commit, u);
    } else if Put(s, s') {
      PutAnnounces(c, s, s', u);
    } else {
      OthersAnnounce(c, w, s, s', u);
    }
  }

  lemma NextAnnounces(c: Config, w: nat, run: seq<State>, n: nat, u: Uid)
    requires IsRun(c, w, run) && 0 < n < |run| && !Crash(run[n - 1], run[n])
    ensures Head(run[n].tables, u) == Head(run[n - 1].tables, u) ==> (Announced(run[n], u) <==> Announced(run[n - 1], u))
    ensures Head(run[n].tables, u) != Head(run[n - 1].tables, u) ==> (Announced(run[n], u) <==> !LostAnswer(run[n - 1], run[n]))
  {
    Always.RunKeeps(c, w, run, n - 1);
    assert StepAt(c, w, run, n - 1);
    StepAnnounces(c, w, run[n - 1], run[n], u);
  }

  /** The user's head grew at step `k` for the last time before `n`. */
  ghost predicate LastGrowth(run: seq<State>, k: nat, n: nat, u: Uid)
  {
    && 0 < k <= n < |run| && Head(run[k].tables, u) != Head(run[k - 1].tables, u)
    && forall j :: k <= j <= n ==> Head(run[j].tables, u) == Head(run[k].tables, u)
  }

  lemma {:induction false} StaysAnnounced(c: Config, w: nat, run: seq<State>, k: nat, n: nat, u: Uid)
    requires IsRun(c, w, run) && LastGrowth(run, k, n, u) && !CrashBetween(run, k - 1, n)
    ensures Announced(run[n], u) <==> !LostAnswer(run[k - 1], run[k])
  {
    NextAnnounces(c, w, run, n, u);
    if k < n {
      StaysAnnounced(c, w, run, k, n - 1, u);
    }
  }

  /**
   Within one process, between messages: the largest number put for a user is the user's stored head if and only if
   the answer to the save that raised the head last was not lost. The largest number put is the one waiting in the
   cache, or else the last one pushed.
   */
  lemma AnnouncedIff(c: Config, w: nat, run: seq<State>, k: nat, n: nat, u: Uid)
    requires IsRun(c, w, run) && LastGrowth(run, k, n, u) && !CrashBetween(run, k - 1, n) && run[n].phase == Idle
    ensures var f := run[n].flow;
            var told := if u in f.cache then f.cache[u].headSeq else LargestPush(f.pushes, u);
            told == Head(run[n].tables, u) <==> !LostAnswer(run[k - 1], run[k])
  {
    StaysAnnounced(c, w, run, k, n, u);
    Always.RunKeeps(c, w, run, n);
    assert Conserves(run[n].flow, u);
  }

  lemma {:induction false} AnnouncedSince(c: Config, w: nat, run: seq<State>, p: nat, n: nat, u: Uid)
    requires IsRun(c, w, run) && p <= n < |run| && !CrashBetween(run, p, n)
    requires forall j :: p < j <= n ==> !LostAnswer(run[j - 1], run[j])
    ensures Head(run[n].tables, u) == Head(run[p].tables, u) || Announced(run[n], u)
  {
    if p < n {
      AnnouncedSince(c, w, run, p, n - 1, u);
      NextAnnounces(c, w, run, n, u);
    }
  }

  /**
   Within one process in which no answer was lost, between messages: every user who got a row since has the stored
   head waiting in the cache, or was last pushed just that head.
   */
  lemma EverybodyIsTold(c: Config, w: nat, run: seq<State>, p: nat, n: nat, u: Uid)
    requires IsRun(c, w, run) && p <= n < |run| && !CrashBetween(run, p, n) && run[n].phase == Idle
    requires forall j :: p < j <= n ==> !LostAnswer(run[j - 1], run[j])
    requires Head(run[n].tables, u) != Head(run[p].tables, u)
    ensures var f := run[n].flow;
            (if u in f.cache then f.cache[u].headSeq else LargestPush(f.pushes, u)) == Head(run[n].tables, u)
  {
    AnnouncedSince(c, w, run, p, n, u);
    Always.RunKeeps(c, w, run, n);
    assert Conserves(run[n].flow, u);
  }

  /** In every configuration, from any time on: a run in which an answer is lost and the user is never told. */
  lemma UntoldRun(c: Config, w: nat, clock: Instant) returns (run: seq<State>)
    requires ValidConfig(c)
    ensures IsRun(c, w, run)
    ensures var s := Last(run);
            && s.phase == Idle && s.committed == 1 && Head(s.tables, 1) == 1
            && s.flow.cache == map[] && LargestPush(s.flow.pushes, 1) == 0
  {
    Recent(c);
    run := Begin(c, w, clock);
    run := Produce(c, w, run, Message(clock, "", Parsed([1])));
    run := SaveNext(c, w, run, 1);
  }

  // ----- a message can always be taken in -----

  /**
   From every state between messages whose next message is new, is accepted and fits: the run can go on so that the
   message is stored, every recipient's new head is put, and the offset is committed.
   */
  lemma CanIngest(c: Config, w: nat, run: seq<State>) returns (longer: seq<State>)
    requires IsRun(c, w, run) && Last(run).phase == Idle && Last(run).position < |Last(run).log|
    requires var s := Last(run);
             && Accepts(c, s.log[s.position], s.clock) && s.position !in s.tables.events
             && Fits(s.tables, s.log[s.position].parsed.to)
    ensures IsRun(c, w, longer)
    ensures var s, s' := Last(run), Last(longer);
            && s'.phase == Idle && s'.committed == s'.position == s.position + 1
            && Inserted(s.tables, s'.tables, EventOf(s, s.position))
            && forall u | u in s.log[s.position].parsed.to :: LargestPut(s'.flow.puts, u) == Head(s'.tables, u)
  {
    var s := Last(run);
    var o, e := s.position, EventOf(s, s.position);
    longer := FetchNext(c, w, run);
    longer := TryToSave(c, w, longer, Committed);
    FirstSave(c, w, run, e);
    longer := PutIfAny(c, w, longer);
    longer := CommitIt(c, w, longer);
  }

  /** The first attempt at a message that fits, if it is committed. */
  lemma FirstSave(c: Config, w: nat, run: seq<State>, e: Event)
    requires IsRun(c, w, run) && e.offset !in Last(run).tables.events && Fits(Last(run).tables, e.to)
    ensures var t := Last(run).tables;
            var (t', r) := Save(t, e, Committed);
            && r.Saved? && Inserted(t, t', e) && (forall u :: u in r.seqMap <==> u in e.to)
  {
    Always.RunKeeps(c, w, run, |run| - 1);
    SaveSucceedsIff(Last(run).tables, e, Committed);
    SaveInserts(Last(run).tables, e, Committed);
  }

  lemma CommitIt(c: Config, w: nat, run: seq<State>) returns (longer: seq<State>)
    requires IsRun(c, w, run) && Last(run).phase.Committing?
    ensures IsRun(c, w, longer)
    ensures Last(longer) == Last(run).(committed := Last(run).phase.offset + 1, phase := Idle)
  {
    var s := Last(run);
    var next := s.(committed := s.phase.offset + 1, phase := Idle);
    assert CommitOffset(s, next, true, true);
    longer := Go(c, w, run, next);
  }

  lemma PutIfAny(c: Config, w: nat, run: seq<State>) returns (longer: seq<State>)
    requires IsRun(c, w, run) && Passed(Last(run).phase)
    ensures IsRun(c, w, longer)
    ensures var s, s' := Last(run), Last(longer);
            && s' == s.(flow := s'.flow, phase := Committing(s.phase.offset))
            && forall u | s.phase.Putting? && u in s.phase.seqMap :: LargestPut(s'.flow.puts, u) == Head(s.tables, u)
  {
    longer := run;
    var s := Last(run);
    if s.phase.Putting? {
      Always.RunKeeps(c, w, run, |run| - 1);
      Safety.PutFlow(s.flow, s.phase, s.tables, s.clock);
      var next := s.(flow := FlowPut(s.flow, s.phase.seqMap, s.clock), phase := Committing(s.phase.offset));
      assert Put(s, next);
      longer := Go(c, w, run, next);
      assert next.flow.puts[..|s.flow.puts|] == s.flow.puts;
    }
  }
}
