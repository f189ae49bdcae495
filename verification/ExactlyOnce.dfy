/** Exactly-once ingestion over every run, and exactly when it holds. */
module ExactlyOnce {
  import opened EventTables
  import opened Ingest
  import opened IngestSafety
  import opened IngestRuns

  // ----- at most once -----

  /** No offset was inserted twice. */
  ghost predicate AtMostOnce(s: State)
  {
    forall i, j :: 0 <= i < j < |s.journal| ==> s.journal[i] != s.journal[j]
  }

  /** Every attempt to save is early enough, or nothing is ever cleaned. */
  predicate InTime(c: Config, w: nat)
  {
    c.cleanEvents ==> w < DAY
  }

  ghost predicate AlwaysAtMostOnce(c: Config, w: nat)
  {
    forall run | IsRun(c, w, run) :: AtMostOnce(run[|run| - 1])
  }

  /** When an attempt may be a day late: a message is saved, the answer is lost, it is cleaned, and the retry saves it again. */
  lemma LateRun(c: Config, w: nat) returns (run: seq<State>)
    requires ValidConfig(c) && !InTime(c, w)
    ensures IsRun(c, w, run) && run[|run| - 1].journal == [0, 0] && !AtMostOnce(run[|run| - 1])
  {
    AgeLimit(c);
    run := Begin(c, w, Old(c) + c.ttlDays * DAY);
    run := Produce(c, w, run, Message(Old(c), "", Parsed([1])));
    run := FetchNext(c, w, run);
    var e := EventOf(Last(run), 0);
    SaveForOne(EMPTY, e, 1);
    run := TryToSave(c, w, run, CommittedButFailed);
    assert Last(run).journal == [0];
    run := CleanedADayLater(c, w, run);
    assert EventOf(Last(run), 0) == e;
    SaveForOne(Last(run).tables, e, 1);
    run := TryToSave(c, w, run, CommittedButFailed);
    var journal := Last(run).journal;
    assert journal == [0, 0] && journal[0] == journal[1];
  }

  /**
   Each offset is inserted at most once in every run if and only if every attempt to save is made
   less than a day after its message passed the filter, or cleaning is off.
   */
  lemma AtMostOnceIff(c: Config, w: nat)
    requires ValidConfig(c)
    ensures AlwaysAtMostOnce(c, w) <==> InTime(c, w)
  {
    if InTime(c, w) {
      forall run | IsRun(c, w, run) ensures AtMostOnce(run[|run| - 1]) {
        RunKeepsInv(c, w, run, |run| - 1);
      }
    } else {
      var run := LateRun(c, w);
    }
  }

  // ----- what was split over whom -----

  /** The rows of a user that belong to an offset. */
  function RowsOf(t: Tables, u: Uid, o: Offset): set<Key>
  {
    set k | k in t.userEvents && k.uid == u && t.userEvents[k].offset == o
  }

  /** Every stored offset gave every user as many rows as the message lists the user. */
  ghost predicate Split(log: seq<Message>, full: Tables)
  {
    forall o, u :: SplitAt(log, full, o, u)
  }

  ghost predicate SplitAt(log: seq<Message>, full: Tables, o: Offset, u: Uid)
  {
    o in full.events ==>
      o < |log| && log[o].parsed.Parsed? && |RowsOf(full, u, o)| == Occurrences(log[o].parsed.to, u)
  }

  /** The keys of a user above one number and up to another. */
  function KeysAbove(u: Uid, lo: nat, hi: nat): (r: set<Key>)
    requires lo <= hi
    ensures forall k :: k in r <==> k.uid == u && lo < k.seqNo <= hi
    ensures |r| == hi - lo
  {
    if lo == hi then {} else KeysAbove(u, lo, hi - 1) + {Key(u, hi)}
  }

  lemma InsertedRow(full: Tables, full': Tables, e: Event, u: Uid, k: Key)
    requires Valid(full) && Inserted(full, full', e) && e.offset !in full.events
    ensures k in RowsOf(full', u, e.offset) <==> k.uid == u && Head(full, u) < k.seqNo <= Head(full', u)
  {
    if k in full.userEvents {
      assert full.userEvents[k].offset in full.events;
    }
  }

  lemma InsertedRows(full: Tables, full': Tables, e: Event, u: Uid)
    requires Valid(full) && Inserted(full, full', e) && e.offset !in full.events
    ensures |RowsOf(full', u, e.offset)| == Occurrences(e.to, u)
  {
    var keys := KeysAbove(u, Head(full, u), Head(full', u));
    forall k ensures k in RowsOf(full', u, e.offset) <==> k in keys {
      InsertedRow(full, full', e, u, k);
    }
    assert RowsOf(full', u, e.offset) == keys;
  }

  lemma OtherRows(full: Tables, full': Tables, e: Event, u: Uid, o: Offset)
    requires Valid(full) && Inserted(full, full', e) && o != e.offset
    ensures RowsOf(full', u, o) == RowsOf(full, u, o)
  {
  }

  lemma MarkedRows(full: Tables, k: Key, u: Uid, o: Offset)
    ensures RowsOf(SetRead(full, k), u, o) == RowsOf(full, u, o)
  {
    SetReadKeepsOffsets(full, k);
  }

  /** Splitting one event over its recipients. */
  lemma InsertKeepsSplit(log: seq<Message>, full: Tables, full': Tables, e: Event)
    requires Valid(full) && Split(log, full) && Inserted(full, full', e) && e.offset !in full.events
    requires e.offset < |log| && log[e.offset].parsed == Parsed(e.to)
    ensures Split(log, full')
  {
    forall o, u ensures SplitAt(log, full', o, u) {
      assert SplitAt(log, full, o, u);
      if o == e.offset {
        InsertedRows(full, full', e, u);
      } else {
        OtherRows(full, full', e, u, o);
      }
    }
  }

  lemma AttemptKeepsSplit(c: Config, w: nat, s: State, s': State, commit: Commit)
    requires ValidConfig(c) && Inv(c, s) && Attempt(w, s, s', commit) && InTime(c, w) && Split(s.log, s.full)
    ensures Split(s'.log, s'.full)
  {
    SavingIsStoredOrNew(c, w, s);
    var o := s.phase.offset;
    var e := EventOf(s, o);
    if o in s.full.events {
      assert FromLog(s.log, s.full.events, o);
      SaveAgain(s.full, e, commit);
    } else {
      SaveInserts(s.full, e, commit);
      if s'.full != s.full {
        InsertKeepsSplit(s.log, s.full, s'.full, e);
      }
    }
  }

  /** Marking rows, or a longer log, changes nothing about who got what. */
  lemma OthersKeepSplit(log: seq<Message>, log': seq<Message>, full: Tables, full': Tables)
    requires Split(log, full) && log <= log' && (full' == full || exists k :: full' == SetRead(full, k))
    ensures Split(log', full')
  {
    forall o, u ensures SplitAt(log', full', o, u) {
      assert SplitAt(log, full, o, u);
      if full' != full {
        var k :| full' == SetRead(full, k);
        MarkedRows(full, k, u, o);
      }
    }
  }

  lemma OtherSteps(c: Config, w: nat, s: State, s': State)
    requires Step(c, w, s, s') && forall commit :: !Attempt(w, s, s', commit)
    ensures s.log <= s'.log && (s'.full == s.full || exists k :: s'.full == SetRead(s.full, k))
  {
    if k :| MarkRead(s, s', k) {
      assert s'.full == SetRead(s.full, k);
    }
  }

  lemma StepKeepsSplit(c: Config, w: nat, s: State, s': State)
    requires ValidConfig(c) && Inv(c, s) && Step(c, w, s, s') && InTime(c, w) && Split(s.log, s.full)
    ensures Split(s'.log, s'.full)
  {
    if commit :| Attempt(w, s, s', commit) {
      AttemptKeepsSplit(c, w, s, s', commit);
    } else {
      OtherSteps(c, w, s, s');
      OthersKeepSplit(s.log, s'.log, s.full, s'.full);
    }
  }

  lemma {:induction false} RunKeepsSplit(c: Config, w: nat, run: seq<State>, n: nat)
    requires ValidConfig(c) && IsRun(c, w, run) && n < |run| && InTime(c, w)
    ensures Split(run[n].log, run[n].full)
  {
    if n > 0 {
      RunKeepsSplit(c, w, run, n - 1);
      RunKeepsInv(c, w, run, n - 1);
      assert StepAt(c, w, run, n - 1);
      StepKeepsSplit(c, w, run[n - 1], run[n]);
    }
  }

  /**
   Exactly-once ingestion, in every run that saves in time, across crashes and panics: an offset
   below the committed one was inserted exactly once, or refused by the filter; an inserted
   offset gave each user as many rows as its message lists the user; and no put panics.
   */
  lemma ExactlyOnce(c: Config, w: nat, run: seq<State>)
    requires ValidConfig(c) && IsRun(c, w, run) && InTime(c, w)
    ensures var s := run[|run| - 1];
            && s.phase != Panicked(HeadPanic)
            && AtMostOnce(s)
            && s.committed <= |s.log|
            && (forall o: nat | o < s.committed :: o in s.journal || (o in s.rejected && !Accepts(c, s.log[o], s.clock)))
            && (forall o, u | o in s.journal ::
                  o < |s.log| && s.log[o].parsed.Parsed? && |RowsOf(s.full, u, o)| == Occurrences(s.log[o].parsed.to, u))
  {
    RunKeepsInv(c, w, run, |run| - 1);
    RunKeepsSplit(c, w, run, |run| - 1);
    var s := run[|run| - 1];
    forall o, u | o in s.journal
      ensures o < |s.log| && s.log[o].parsed.Parsed? && |RowsOf(s.full, u, o)| == Occurrences(s.log[o].parsed.to, u)
    {
      assert SplitAt(s.log, s.full, o, u);
    }
  }
}
