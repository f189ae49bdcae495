/** The sequence numbers over every run of the ingestion, however late a message is saved. */
module IngestNumbers {
  import opened EventTables
  import opened Ingest
  import opened IngestRuns
  import opened ExactlyOnce
  import Safety = IngestSafety
  import Always = IngestAlways

  /** Numbers are only given out above the head, and heads do not fall. */
  ghost predicate Grows(t: Tables, t': Tables)
  {
    && (forall u :: Head(t, u) <= Head(t', u))
    && (forall k | k in t'.userEvents && k !in t.userEvents :: Head(t, k.uid) < k.seqNo)
  }

  lemma AttemptGrows(c: Config, w: nat, s: State, s': State, commit: Commit)
    requires Always.Always(c, s) && Attempt(w, s, s', commit)
    ensures Grows(s.tables, s'.tables) && (Complete(s.tables) ==> Complete(s'.tables))
  {
    var e := EventOf(s, s.phase.offset);
    if e.offset in s.tables.events {
      assert FromLog(s.log, s.tables.events, e.offset);
      SaveAgain(s.tables, e, commit);
    } else {
      SaveInserts(s.tables, e, commit);
      if s'.tables != s.tables && Complete(s.tables) {
        InsertedIsComplete(s.tables, s'.tables, e);
      }
    }
  }

  lemma InsertedIsComplete(t: Tables, t': Tables, e: Event)
    requires Complete(t) && Inserted(t, t', e)
    ensures Complete(t')
  {
    forall k: Key | 1 <= k.seqNo <= Head(t', k.uid) ensures k in t'.userEvents {
      if k.seqNo <= Head(t, k.uid) {
        assert k in t.userEvents;
      }
    }
  }

  lemma OthersGrow(c: Config, w: nat, s: State, s': State)
    requires Step(c, w, s, s') && forall commit :: !Attempt(w, s, s', commit)
    ensures Grows(s.tables, s'.tables) && s.cutoffs <= s'.cutoffs
    ensures s'.cutoffs == {} && Complete(s.tables) ==> Complete(s'.tables)
  {
    if k :| MarkRead(s, s', k) {
      Safety.SetReadKeepsOffsets(s.tables, k);
    } else if CleanEvents(c, s, s') {
      assert s'.cutoffs != {};
    }
  }

  lemma StepGrows(c: Config, w: nat, s: State, s': State)
    requires Always.Always(c, s) && Step(c, w, s, s')
    ensures Grows(s.tables, s'.tables) && s.cutoffs <= s'.cutoffs
    ensures s'.cutoffs == {} && Complete(s.tables) ==> Complete(s'.tables)
  {
    if commit :| Attempt(w, s, s', commit) {
      AttemptGrows(c, w, s, s', commit);
    } else {
      OthersGrow(c, w, s, s');
    }
  }

  lemma NextGrows(c: Config, w: nat, run: seq<State>, n: nat)
    requires IsRun(c, w, run) && 0 < n < |run|
    ensures Grows(run[n - 1].tables, run[n].tables) && run[n - 1].cutoffs <= run[n].cutoffs
    ensures run[n].cutoffs == {} && Complete(run[n - 1].tables) ==> Complete(run[n].tables)
  {
    Always.RunKeeps(c, w, run, n - 1);
    assert StepAt(c, w, run, n - 1);
    StepGrows(c, w, run[n - 1], run[n]);
  }

  lemma {:induction false} WholeUntilCleaned(c: Config, w: nat, run: seq<State>, n: nat)
    requires IsRun(c, w, run) && n < |run|
    ensures run[n].cutoffs == {} ==> Complete(run[n].tables)
  {
    if n > 0 {
      WholeUntilCleaned(c, w, run, n - 1);
      NextGrows(c, w, run, n);
    }
  }

  /** In a run that saves in time, the numbers follow the offsets, and those missing are those cleaned. */
  ghost predicate MissingOnlyCleaned(s: State)
  {
    && Ordered(s.tables)
    && (forall k: Key :: k in s.full.userEvents <==> 1 <= k.seqNo <= Head(s.tables, k.uid))
    && (forall k :: k in s.tables.userEvents <==>
                    k in s.full.userEvents && s.full.userEvents[k].offset in s.tables.events)
  }

  lemma InTimeTables(c: Config, w: nat, run: seq<State>)
    requires ValidConfig(c) && IsRun(c, w, run) && InTime(c, w)
    ensures MissingOnlyCleaned(Last(run))
  {
    Safety.RunKeepsInv(c, w, run, |run| - 1);
    var s := Last(run);
    forall k: Key ensures k in s.full.userEvents <==> 1 <= k.seqNo <= Head(s.tables, k.uid) {
      assert Head(s.tables, k.uid) == Head(s.full, k.uid);
    }
  }

  /**
   The tables in every run, however late messages are saved: a user's stored numbers lie in 1 to the head, and are
   exactly 1 to the head when nothing was cleaned. If saves are made in time the numbers also follow the offsets, and
   they are exactly those of the never-cleaned tables whose event is still there, which are 1 to the head.
   */
  lemma TablesOverRuns(c: Config, w: nat, run: seq<State>)
    requires ValidConfig(c) && IsRun(c, w, run)
    ensures var s := Last(run);
            && (forall k | k in s.tables.userEvents :: 1 <= k.seqNo <= Head(s.tables, k.uid))
            && (s.cutoffs == {} ==> forall k: Key :: k in s.tables.userEvents <==> 1 <= k.seqNo <= Head(s.tables, k.uid))
            && (InTime(c, w) ==> MissingOnlyCleaned(s))
  {
    Always.RunKeeps(c, w, run, |run| - 1);
    WholeUntilCleaned(c, w, run, |run| - 1);
    if InTime(c, w) {
      InTimeTables(c, w, run);
    }
  }

  /** In every run, a number that is gone after it was stored is not stored again. */
  lemma {:induction false} NoReuse(c: Config, w: nat, run: seq<State>, i: nat, j: nat, n: nat, k: Key)
    requires IsRun(c, w, run) && i <= j <= n < |run|
    requires k in run[i].tables.userEvents && k !in run[j].tables.userEvents
    ensures k !in run[n].tables.userEvents && k.seqNo <= Head(run[n].tables, k.uid)
    decreases n
  {
    if n == j {
      HeadStays(c, w, run, i, j, k);
    } else {
      NoReuse(c, w, run, i, j, n - 1, k);
      NextGrows(c, w, run, n);
    }
  }

  lemma {:induction false} HeadStays(c: Config, w: nat, run: seq<State>, i: nat, n: nat, k: Key)
    requires IsRun(c, w, run) && i <= n < |run| && k in run[i].tables.userEvents
    ensures k.seqNo <= Head(run[n].tables, k.uid)
    decreases n
  {
    if n == i {
      Always.RunKeeps(c, w, run, i);
    } else {
      HeadStays(c, w, run, i, n - 1, k);
      NextGrows(c, w, run, n);
    }
  }

  // ----- the order of the numbers -----

  /** Two messages to user 1 are saved and committed, at the last moment for the first. */
  lemma BothSaved(c: Config, w: nat) returns (run: seq<State>)
    requires ValidConfig(c) && c.cleanEvents
    ensures IsRun(c, w, run)
    ensures var s := Last(run);
            && s.log == [Message(Old(c), "", Parsed([1])), Message(Old(c) + 1, "", Parsed([1]))]
            && s.clock == Old(c) + c.ttlDays * DAY && s.phase == Idle && s.committed == 2
            && Valid(s.tables) && Head(s.tables, 1) == 2
            && s.tables.events == map[0 := EventRow(Old(c), ""), 1 := EventRow(Old(c) + 1, "")]
            && Key(1, 2) in s.tables.userEvents && s.tables.userEvents[Key(1, 2)].offset == 1
  {
    var m0, m1 := Message(Old(c), "", Parsed([1])), Message(Old(c) + 1, "", Parsed([1]));
    AgeLimit(c);
    run := Begin(c, w, Old(c) + c.ttlDays * DAY);
    run := Produce(c, w, run, m0);
    run := Produce(c, w, run, m1);
    assert Last(run).log == [m0, m1];
    run := SaveNext(c, w, run, 1);
    run := SaveNext(c, w, run, 1);
  }

  /** The first message is handed out again, and passes the filter; a day later it is cleaned, and then saved again. */
  lemma DisorderRun(c: Config, w: nat) returns (run: seq<State>)
    requires ValidConfig(c) && !InTime(c, w)
    ensures IsRun(c, w, run) && !Ordered(Last(run).tables)
  {
    run := BothSaved(c, w);
    var s := Last(run);
    AgeLimit(c);
    assert Rewind(s, s.(position := 0));
    run := Go(c, w, run, s.(position := 0));
    run := FetchNext(c, w, run);
    run := CleanedADayLater(c, w, run);
    var t := Last(run).tables;
    var e := EventOf(Last(run), 0);
    SaveForOne(t, e, 1);
    run := TryToSave(c, w, run, CommittedButFailed);
    var t' := Last(run).tables;
    assert t'.userEvents[Key(1, 2)].offset == 1 && t'.userEvents[Key(1, 3)].offset == 0;
  }

  ghost predicate AlwaysOrdered(c: Config, w: nat)
  {
    forall run | IsRun(c, w, run) :: Ordered(Last(run).tables)
  }

  /** In every run each user's numbers follow the offsets, if and only if saves are made in time. */
  lemma OrderedIff(c: Config, w: nat)
    requires ValidConfig(c)
    ensures AlwaysOrdered(c, w) <==> InTime(c, w)
  {
    if InTime(c, w) {
      forall run | IsRun(c, w, run) ensures Ordered(Last(run).tables) {
        InTimeTables(c, w, run);
      }
    } else {
      var run := DisorderRun(c, w);
    }
  }
}
