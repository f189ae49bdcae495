/** What filtering, cleaning and marking do to a message over every run of the ingestion, however late it is saved. */
module IngestEffects {
  import opened EventTables
  import opened Ingest
  import opened IngestRuns
  import Always = IngestAlways
  import Numbers = IngestNumbers
  import Views = IngestViews

  // ----- the filter -----

  /** The age up to which a message is taken, with the wrap-around when cleaning is off. */
  function AgeLimit(c: Config): int
  {
    if c.cleanEvents then c.ttlDays * DAY else 5_235_207_429_329_846_272
  }

  predicate WellFormed(c: Config, m: Message)
  {
    m.parsed.Parsed? && |m.value| <= c.valueMaxBytes
  }

  ghost predicate StoredAreWellFormed(c: Config, s: State)
  {
    forall o | o in s.journal :: o < |s.log| && WellFormed(c, s.log[o])
  }

  lemma StepKeepsWellFormed(c: Config, w: nat, s: State, s': State)
    requires Always.Always(c, s) && Step(c, w, s, s') && StoredAreWellFormed(c, s)
    ensures StoredAreWellFormed(c, s')
  {
  }

  lemma {:induction false} RunKeepsWellFormed(c: Config, w: nat, run: seq<State>, n: nat)
    requires IsRun(c, w, run) && n < |run|
    ensures StoredAreWellFormed(c, run[n])
  {
    if n > 0 {
      RunKeepsWellFormed(c, w, run, n - 1);
      Always.RunKeeps(c, w, run, n - 1);
      assert StepAt(c, w, run, n - 1);
      StepKeepsWellFormed(c, w, run[n - 1], run[n]);
    }
  }

  /**
   In every run: only well-formed messages within the size limit were ever inserted, the one being saved was young
   enough when it was fetched, and what was refused is malformed, too large or too old.
   */
  lemma FilterOverRuns(c: Config, w: nat, run: seq<State>, o: Offset)
    requires ValidConfig(c) && IsRun(c, w, run)
    ensures var s := Last(run);
            && (o in s.journal ==> o < |s.log| && WellFormed(c, s.log[o]))
            && (o in s.rejected ==>
                  o < |s.log| && (!WellFormed(c, s.log[o]) || s.clock - s.log[o].time > AgeLimit(c)))
            && (s.phase.Saving? && s.phase.offset == o ==>
                  o < |s.log| && WellFormed(c, s.log[o]) && s.phase.since - s.log[o].time <= AgeLimit(c))
  {
    RunKeepsWellFormed(c, w, run, |run| - 1);
    Always.RunKeeps(c, w, run, |run| - 1);
    var s := Last(run);
    if o < |s.log| && WellFormed(c, s.log[o]) {
      Views.FilterAge(c, s.log[o], s.clock);
      if s.phase.Saving? {
        Views.FilterAge(c, s.log[o], s.phase.since);
      }
    }
  }

  // ----- cleaning -----

  /** Earlier instants do not have later midnights. */
  ghost predicate MonotoneMidnight(c: Config)
  {
    forall i, j :: i <= j ==> c.midnight(i) <= c.midnight(j)
  }

  /** A local midnight that lies more days back than the time to live. */
  ghost predicate OldMidnight(c: Config, m: Instant, now: Instant)
  {
    c.midnight(m) == m && m + (c.ttlDays + 1) * DAY <= now
  }

  /**
   A clean removes an event exactly if an old enough midnight has passed since it was created. The user events go
   with their event. What stays is unchanged, and so are the heads.
   */
  lemma CleanedIff(c: Config, s: State, s': State, o: Offset, k: Key)
    requires ValidConfig(c) && MonotoneMidnight(c) && Valid(s.tables) && CleanEvents(c, s, s')
    ensures o in s.tables.events ==>
              (o !in s'.tables.events <==> exists m :: OldMidnight(c, m, s.clock) && s.tables.events[o].createTime <= m)
    ensures o in s'.tables.events ==> o in s.tables.events && s'.tables.events[o] == s.tables.events[o]
    ensures k in s'.tables.userEvents <==>
              k in s.tables.userEvents && s.tables.userEvents[k].offset in s'.tables.events
    ensures k in s'.tables.userEvents ==> s'.tables.userEvents[k] == s.tables.userEvents[k]
    ensures s'.tables.userSeq == s.tables.userSeq
  {
    var cutoff := DayBefore(c, c.ttlDays, s.clock);
    assert OldMidnight(c, cutoff, s.clock);
    forall m | OldMidnight(c, m, s.clock) ensures m <= cutoff {
      assert m <= s.clock - (c.ttlDays + 1) * DAY;
    }
  }

  /** In every run, all cleaning was done at local midnights more days back than the time to live. */
  lemma {:induction false} CutoffsAreOldMidnights(c: Config, w: nat, run: seq<State>, n: nat, x: Instant)
    requires ValidConfig(c) && IsRun(c, w, run) && n < |run| && x in run[n].cutoffs
    ensures c.cleanEvents && OldMidnight(c, x, run[n].clock)
  {
    if n > 0 {
      assert StepAt(c, w, run, n - 1);
      if x in run[n - 1].cutoffs {
        CutoffsAreOldMidnights(c, w, run, n - 1, x);
        ClockGrows(c, w, run[n - 1], run[n]);
      } else {
        CutoffIsNew(c, w, run[n - 1], run[n], x);
      }
    }
  }

  lemma ClockGrows(c: Config, w: nat, s: State, s': State)
    requires Step(c, w, s, s')
    ensures s.clock <= s'.clock
  {
  }

  lemma CutoffIsNew(c: Config, w: nat, s: State, s': State, x: Instant)
    requires ValidConfig(c) && Step(c, w, s, s') && x in s'.cutoffs && x !in s.cutoffs
    ensures c.cleanEvents && OldMidnight(c, x, s'.clock)
  {
    assert CleanEvents(c, s, s');
  }

  // ----- marking -----

  /** The step from `m` to `m + 1` marks the row. */
  ghost predicate MarkedAt(run: seq<State>, m: nat, k: Key)
    requires m + 1 < |run|
  {
    MarkRead(run[m], run[m + 1], k)
  }

  lemma MarkKeepsRow(s: State, s': State, j: Key, k: Key)
    requires MarkRead(s, s', j) && k in s.tables.userEvents
    ensures k in s'.tables.userEvents
    ensures s'.tables.userEvents[k] == s.tables.userEvents[k].(read := s.tables.userEvents[k].read || j == k)
  {
  }

  lemma AttemptKeepsRow(c: Config, w: nat, s: State, s': State, commit: Commit, k: Key)
    requires Always.Always(c, s) && Attempt(w, s, s', commit) && k in s.tables.userEvents
    ensures k in s'.tables.userEvents && s'.tables.userEvents[k] == s.tables.userEvents[k]
  {
    var e := EventOf(s, s.phase.offset);
    if e.offset in s.tables.events {
      assert FromLog(s.log, s.tables.events, e.offset);
      SaveAgain(s.tables, e, commit);
    } else {
      SaveInserts(s.tables, e, commit);
    }
  }

  lemma StepKeepsRow(c: Config, w: nat, s: State, s': State, k: Key)
    requires Always.Always(c, s) && Step(c, w, s, s') && k in s.tables.userEvents && k in s'.tables.userEvents
    ensures var row, row' := s.tables.userEvents[k], s'.tables.userEvents[k];
            row' == row.(read := row.read || MarkRead(s, s', k))
  {
    if MarkRead(s, s', k) {
      MarkKeepsRow(s, s', k, k);
    } else if j :| MarkRead(s, s', j) {
      MarkKeepsRow(s, s', j, k);
    } else if commit :| Attempt(w, s, s', commit) {
      AttemptKeepsRow(c, w, s, s', commit, k);
    }
  }

  lemma NextRow(c: Config, w: nat, run: seq<State>, n: nat, k: Key)
    requires IsRun(c, w, run) && 0 < n < |run| && k in run[n - 1].tables.userEvents && k in run[n].tables.userEvents
    ensures var row, row' := run[n - 1].tables.userEvents[k], run[n].tables.userEvents[k];
            row' == row.(read := row.read || MarkedAt(run, n - 1, k))
  {
    Always.RunKeeps(c, w, run, n - 1);
    assert StepAt(c, w, run, n - 1);
    StepKeepsRow(c, w, run[n - 1], run[n], k);
  }

  /** In every run, a stored row is the one first stored, and it is read if and only if it was marked since. */
  lemma {:induction false} ReadIff(c: Config, w: nat, run: seq<State>, i: nat, n: nat, k: Key)
    requires IsRun(c, w, run) && i <= n < |run|
    requires k in run[i].tables.userEvents && !run[i].tables.userEvents[k].read && k in run[n].tables.userEvents
    ensures run[n].tables.userEvents[k] ==
            run[i].tables.userEvents[k].(read := exists m :: i <= m < n && MarkedAt(run, m, k))
  {
    if i < n {
      if k !in run[n - 1].tables.userEvents {
        Numbers.NoReuse(c, w, run, i, n - 1, n, k);
      }
      ReadIff(c, w, run, i, n - 1, k);
      NextRow(c, w, run, n, k);
    }
  }
}
