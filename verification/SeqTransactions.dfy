/**
 Any number of transactions calling `incSeq` for one user at the same time (`store/event.go`).
 `SELECT ... FOR UPDATE` and an insert lock the row until commit or rollback; an insert reports a
 duplicate key only against a committed row; any transaction may be rolled back at any point.
 */
module SeqTransactions {
  import opened Options

  type Tx = nat

  /** Where a transaction stands inside `incSeq`. */
  datatype Pc =
    | Ready                 // no call in progress
    | Missing               // the select found no row
    | Duplicate             // the insert found a committed row
    | Selected(seen: nat)   // `seq` is known: the row's value, or 0 after its own insert
    | Ended                 // committed or rolled back

  datatype TxState = TxState(pc: Pc, results: seq<nat>)

  /** The row of one user: its committed value (0: no row), who holds it, and the holder's own version. */
  datatype State = State(
    row: nat,
    holder: Option<Tx>,
    draft: nat,
    txs: map<Tx, TxState>,
    commits: seq<seq<nat>>)

  ghost predicate Init(s: State)
  {
    s == State(0, None, 0, map[], [])
  }

  predicate Running(s: State, i: Tx)
  {
    i in s.txs && s.txs[i].pc != Ended
  }

  function At(s: State, i: Tx, pc: Pc): map<Tx, TxState>
    requires i in s.txs
  {
    s.txs[i := s.txs[i].(pc := pc)]
  }

  ghost predicate Begin(s: State, s': State, i: Tx)
  {
    i !in s.txs && s' == s.(txs := s.txs[i := TxState(Ready, [])])
  }

  /** `lockSeqSQL`: waits while another transaction holds the row. */
  ghost predicate Select(s: State, s': State, i: Tx)
  {
    && Running(s, i) && s.txs[i].pc == Ready
    && if s.holder == Some(i) then s' == s.(txs := At(s, i, Selected(s.draft)))
       else && s.holder == None
            && s' == if s.row == 0 then s.(txs := At(s, i, Missing))
                     else s.(holder := Some(i), draft := s.row, txs := At(s, i, Selected(s.row)))
  }

  /** `insertSeqSQL`: a committed row is a duplicate; otherwise waits for a holder. */
  ghost predicate Insert(s: State, s': State, i: Tx)
  {
    && Running(s, i) && s.txs[i].pc == Missing
    && if s.row > 0 then s' == s.(txs := At(s, i, Duplicate))
       else && s.holder == None
            && s' == s.(holder := Some(i), draft := 1, txs := At(s, i, Selected(0)))
  }

  /** The second `lockSeqSQL`, after the lost race. */
  ghost predicate SelectAgain(s: State, s': State, i: Tx)
  {
    && Running(s, i) && s.txs[i].pc == Duplicate && s.holder == None && s.row > 0
    && s' == s.(holder := Some(i), draft := s.row, txs := At(s, i, Selected(s.row)))
  }

  /** `incSeqSQL`, which changes the row only where it still has the value seen; the call returns `seq + 1`. */
  ghost predicate Update(s: State, s': State, i: Tx)
  {
    && Running(s, i) && s.txs[i].pc.Selected?
    && var seen := s.txs[i].pc.seen;
    && s' == s.(draft := if s.holder == Some(i) && s.draft == seen then seen + 1 else s.draft,
                txs := s.txs[i := TxState(Ready, s.txs[i].results + [seen + 1])])
  }

  ghost predicate Commit(s: State, s': State, i: Tx)
  {
    && Running(s, i) && s.txs[i].pc == Ready
    && var t := s.(txs := At(s, i, Ended), commits := s.commits + [s.txs[i].results]);
    && s' == if s.holder == Some(i) then t.(row := s.draft, holder := None) else t
  }

  ghost predicate Rollback(s: State, s': State, i: Tx)
  {
    && Running(s, i)
    && var t := s.(txs := At(s, i, Ended));
    && s' == if s.holder == Some(i) then t.(holder := None) else t
  }

  ghost predicate Step(s: State, s': State, i: Tx)
  {
    || Begin(s, s', i) || Select(s, s', i) || Insert(s, s', i) || SelectAgain(s, s', i)
    || Update(s, s', i) || Commit(s, s', i) || Rollback(s, s', i)
  }

  ghost predicate IsRun(run: seq<State>, actors: seq<Tx>)
  {
    && |run| == |actors| + 1 && Init(run[0])
    && forall n :: 0 <= n < |actors| ==> Step(run[n], run[n + 1], actors[n])
  }

  /** `n` consecutive numbers above `from`: what calls give when made one after the other. */
  function Next(from: nat, n: nat): seq<nat>
  {
    seq(n, j requires 0 <= j < n => from + 1 + j)
  }

  function Total(commits: seq<seq<nat>>): nat
  {
    if commits == [] then 0 else Total(commits[..|commits| - 1]) + |commits[|commits| - 1]|
  }

  /** Each commit got the numbers directly above all earlier commits. */
  ghost predicate Serial(commits: seq<seq<nat>>)
  {
    forall k :: 0 <= k < |commits| ==> commits[k] == Next(Total(commits[..k]), |commits[k]|)
  }

  ghost predicate Holds(s: State, i: Tx)
  {
    && i in s.txs
    && var tx := s.txs[i];
    && tx.results == Next(s.row, |tx.results|)
    && s.draft >= 1
    && match tx.pc
       case Ready => s.draft == s.row + |tx.results|
       case Selected(seen) =>
         || (seen == s.draft == s.row + |tx.results|)
         || (seen == 0 && s.row == 0 && s.draft == 1 && tx.results == [])
       case _ => false
  }

  /** A running transaction that does not hold the row has no number yet. */
  ghost predicate Waits(s: State, i: Tx)
  {
    Running(s, i) && s.holder != Some(i) ==> s.txs[i].results == [] && !s.txs[i].pc.Selected?
  }

  ghost predicate Numbered(row: nat, commits: seq<seq<nat>>)
  {
    row == Total(commits) && Serial(commits)
  }

  ghost predicate Inv(s: State)
  {
    && Numbered(s.row, s.commits)
    && (forall i :: Waits(s, i))
    && (s.holder.Some? ==> Holds(s, s.holder.value))
  }

  lemma CommitIsNumbered(row: nat, commits: seq<seq<nat>>, results: seq<nat>)
    requires Numbered(row, commits) && results == Next(row, |results|)
    ensures Numbered(row + |results|, commits + [results])
  {
    var more := commits + [results];
    assert more[..|commits|] == commits;
    assert forall k :: 0 <= k < |commits| ==> more[..k] == commits[..k];
  }

  lemma SelectKeepsInv(s: State, s': State, i: Tx)
    requires Inv(s) && (Begin(s, s', i) || Select(s, s', i) || Insert(s, s', i) || SelectAgain(s, s', i))
    ensures Inv(s')
  {
    forall j ensures Waits(s', j) {
      assert Waits(s, j);
    }
    assert Waits(s, i);
  }

  lemma UpdateKeepsInv(s: State, s': State, i: Tx)
    requires Inv(s) && Update(s, s', i)
    ensures Inv(s')
  {
    assert Waits(s, i);
    assert s.holder == Some(i) && Holds(s, i);
    var n := |s.txs[i].results|;
    assert Next(s.row, n) + [s.row + n + 1] == Next(s.row, n + 1);
    forall j ensures Waits(s', j) {
      assert Waits(s, j);
    }
  }

  lemma OthersWait(s: State, s': State, i: Tx)
    requires (forall j :: Waits(s, j)) && i in s.txs && s'.txs == At(s, i, Ended)
    requires s'.holder == if s.holder == Some(i) then None else s.holder
    ensures forall j :: Waits(s', j)
  {
    forall j ensures Waits(s', j) {
      assert Waits(s, j);
    }
  }

  lemma CommitKeepsInv(s: State, s': State, i: Tx)
    requires Inv(s) && Commit(s, s', i)
    ensures Inv(s')
  {
    assert Waits(s, i);
    assert s.holder != Some(i) ==> s.txs[i].results == Next(s.row, 0);
    CommitIsNumbered(s.row, s.commits, s.txs[i].results);
    OthersWait(s, s', i);
  }

  lemma RollbackKeepsInv(s: State, s': State, i: Tx)
    requires Inv(s) && Rollback(s, s', i)
    ensures Inv(s')
  {
    OthersWait(s, s', i);
  }

  lemma StepKeepsInv(s: State, s': State, i: Tx)
    requires Inv(s) && Step(s, s', i)
    ensures Inv(s')
  {
    if Update(s, s', i) {
      UpdateKeepsInv(s, s', i);
    } else if Commit(s, s', i) {
      CommitKeepsInv(s, s', i);
    } else if Rollback(s, s', i) {
      RollbackKeepsInv(s, s', i);
    } else {
      SelectKeepsInv(s, s', i);
    }
  }

  lemma {:induction false} RunKeepsInv(run: seq<State>, actors: seq<Tx>, n: nat)
    requires IsRun(run, actors) && n < |run|
    ensures Inv(run[n])
  {
    if n > 0 {
      RunKeepsInv(run, actors, n - 1);
      StepKeepsInv(run[n - 1], run[n], actors[n - 1]);
    }
  }

  lemma {:induction false} TotalGrows(commits: seq<seq<nat>>, k: nat, m: nat)
    requires k < m <= |commits|
    ensures Total(commits[..k]) + |commits[k]| <= Total(commits[..m])
  {
    assert commits[..m][..m - 1] == commits[..m - 1];
    if k < m - 1 {
      TotalGrows(commits, k, m - 1);
    }
  }

  /** Some committed call returned `v`. */
  ghost predicate Returned(commits: seq<seq<nat>>, v: nat)
  {
    exists k, j :: 0 <= k < |commits| && 0 <= j < |commits[k]| && commits[k][j] == v
  }

  /** No two committed calls returned the same number. */
  ghost predicate Distinct(commits: seq<seq<nat>>)
  {
    forall k, j, k', j' | 0 <= k < |commits| && 0 <= j < |commits[k]| && 0 <= k' < |commits| && 0 <= j' < |commits[k']| ::
      commits[k][j] == commits[k'][j'] ==> k == k' && j == j'
  }

  lemma {:induction false} SerialCovers(commits: seq<seq<nat>>, v: nat, n: nat)
    requires Serial(commits) && n <= |commits| && 1 <= v <= Total(commits[..n])
    ensures Returned(commits, v)
  {
    assert commits[..n][..n - 1] == commits[..n - 1];
    var before := Total(commits[..n - 1]);
    if v <= before {
      SerialCovers(commits, v, n - 1);
    } else {
      assert commits[n - 1][v - before - 1] == v;
    }
  }

  lemma SerialIsDistinct(commits: seq<seq<nat>>, k: nat, j: nat, k': nat, j': nat)
    requires Serial(commits) && k < |commits| && k' < |commits| && j < |commits[k]| && j' < |commits[k']|
    requires commits[k][j] == commits[k'][j']
    ensures k == k' && j == j'
  {
    assert commits[k] == Next(Total(commits[..k]), |commits[k]|);
    assert commits[k'] == Next(Total(commits[..k']), |commits[k']|);
    if k < k' {
      TotalGrows(commits, k, k');
    } else if k' < k {
      TotalGrows(commits, k', k);
    }
  }

  /**
   In every run, whatever the interleaving and the rollbacks, the committed calls return what
   calls made one after the other return: exactly the numbers 1 to the stored head, each once.
   */
  lemma CommittedNumbers(run: seq<State>, actors: seq<Tx>)
    requires IsRun(run, actors)
    ensures var s := run[|run| - 1];
            && Serial(s.commits) && s.row == Total(s.commits)
            && Distinct(s.commits)
            && forall v: nat :: Returned(s.commits, v) <==> 1 <= v <= s.row
  {
    RunKeepsInv(run, actors, |run| - 1);
    var s := run[|run| - 1];
    assert s.commits[..|s.commits|] == s.commits;
    forall k, j, k', j' | 0 <= k < |s.commits| && 0 <= j < |s.commits[k]| && 0 <= k' < |s.commits| && 0 <= j' < |s.commits[k']|
      && s.commits[k][j] == s.commits[k'][j'] ensures k == k' && j == j'
    {
      SerialIsDistinct(s.commits, k, j, k', j');
    }
    forall v: nat ensures Returned(s.commits, v) <==> 1 <= v <= s.row {
      if 1 <= v <= s.row {
        SerialCovers(s.commits, v, |s.commits|);
      }
      if Returned(s.commits, v) {
        var k, j :| 0 <= k < |s.commits| && 0 <= j < |s.commits[k]| && s.commits[k][j] == v;
        assert s.commits[k] == Next(Total(s.commits[..k]), |s.commits[k]|);
        TotalGrows(s.commits, k, |s.commits|);
      }
    }
  }

  // ----- a call can always be made -----

  lemma Go(run: seq<State>, actors: seq<Tx>, i: Tx, next: State) returns (run': seq<State>, actors': seq<Tx>)
    requires IsRun(run, actors) && Step(run[|run| - 1], next, i)
    ensures IsRun(run', actors') && run' == run + [next]
  {
    run', actors' := run + [next], actors + [i];
    forall n | 0 <= n < |actors'| ensures Step(run'[n], run'[n + 1], actors'[n]) {
      assert n < |actors| ==> Step(run[n], run[n + 1], actors[n]);
    }
  }

  lemma {:induction false} Unused(ids: set<Tx>) returns (i: Tx)
    ensures forall j | j in ids :: j < i
  {
    i := 0;
    if ids != {} {
      var k :| k in ids;
      var above := Unused(ids - {k});
      i := if above > k then above else k + 1;
      assert forall j | j in ids :: j == k || j in ids - {k};
    }
  }

  /** Whoever holds the row may be rolled back. */
  lemma Free(run: seq<State>, actors: seq<Tx>) returns (run': seq<State>, actors': seq<Tx>)
    requires IsRun(run, actors)
    ensures IsRun(run', actors') && run <= run'
    ensures var s, s' := run[|run| - 1], run'[|run'| - 1]; s'.holder == None && s'.row == s.row && s'.commits == s.commits
  {
    run', actors' := run, actors;
    var s := run[|run| - 1];
    if s.holder.Some? {
      RunKeepsInv(run, actors, |run| - 1);
      var j := s.holder.value;
      var next := s.(txs := At(s, j, Ended), holder := None);
      assert Rollback(s, next, j);
      run', actors' := Go(run, actors, j, next);
    }
  }

  /** A lost insert race leaves a row to select. */
  lemma {:induction false} DuplicateHasRow(run: seq<State>, actors: seq<Tx>, n: nat, i: Tx)
    requires IsRun(run, actors) && n < |run| && i in run[n].txs && run[n].txs[i].pc == Duplicate
    ensures run[n].row > 0
  {
    if n > 0 {
      var s, s' := run[n - 1], run[n];
      assert Step(s, s', actors[n - 1]);
      RunKeepsInv(run, actors, n - 1);
      if i in s.txs && s.txs[i].pc == Duplicate {
        DuplicateHasRow(run, actors, n - 1, i);
      }
    }
  }

  /** The transaction knows the value of the row and holds it. */
  ghost predicate Knows(s: State, s': State, i: Tx)
    requires i in s.txs
  {
    && s'.row == s.row && s'.commits == s.commits && s'.holder == Some(i)
    && i in s'.txs && s'.txs[i].pc.Selected? && s'.txs[i].results == s.txs[i].results
  }

  lemma FromDuplicate(run: seq<State>, actors: seq<Tx>, i: Tx) returns (run': seq<State>, actors': seq<Tx>)
    requires IsRun(run, actors) && Running(run[|run| - 1], i)
    requires run[|run| - 1].holder == None && run[|run| - 1].txs[i].pc == Duplicate
    ensures IsRun(run', actors') && run <= run' && Knows(run[|run| - 1], run'[|run'| - 1], i)
  {
    var s := run[|run| - 1];
    DuplicateHasRow(run, actors, |run| - 1, i);
    var next := s.(holder := Some(i), draft := s.row, txs := At(s, i, Selected(s.row)));
    assert SelectAgain(s, next, i);
    run', actors' := Go(run, actors, i, next);
  }

  lemma FromMissing(run: seq<State>, actors: seq<Tx>, i: Tx) returns (run': seq<State>, actors': seq<Tx>)
    requires IsRun(run, actors) && Running(run[|run| - 1], i)
    requires run[|run| - 1].holder == None && run[|run| - 1].txs[i].pc == Missing
    ensures IsRun(run', actors') && run <= run' && Knows(run[|run| - 1], run'[|run'| - 1], i)
  {
    var s := run[|run| - 1];
    if s.row > 0 {
      var next := s.(txs := At(s, i, Duplicate));
      assert Insert(s, next, i);
      run', actors' := Go(run, actors, i, next);
      run', actors' := FromDuplicate(run', actors', i);
    } else {
      var next := s.(holder := Some(i), draft := 1, txs := At(s, i, Selected(0)));
      assert Insert(s, next, i);
      run', actors' := Go(run, actors, i, next);
    }
  }

  lemma FromReady(run: seq<State>, actors: seq<Tx>, i: Tx) returns (run': seq<State>, actors': seq<Tx>)
    requires IsRun(run, actors) && Running(run[|run| - 1], i)
    requires (run[|run| - 1].holder == None || run[|run| - 1].holder == Some(i)) && run[|run| - 1].txs[i].pc == Ready
    ensures IsRun(run', actors') && run <= run' && Knows(run[|run| - 1], run'[|run'| - 1], i)
  {
    var s := run[|run| - 1];
    if s.holder == Some(i) {
      var next := s.(txs := At(s, i, Selected(s.draft)));
      assert Select(s, next, i);
      run', actors' := Go(run, actors, i, next);
    } else if s.row > 0 {
      var next := s.(holder := Some(i), draft := s.row, txs := At(s, i, Selected(s.row)));
      assert Select(s, next, i);
      run', actors' := Go(run, actors, i, next);
    } else {
      var next := s.(txs := At(s, i, Missing));
      assert Select(s, next, i);
      run', actors' := Go(run, actors, i, next);
      run', actors' := FromMissing(run', actors', i);
    }
  }

  lemma ToKnown(run: seq<State>, actors: seq<Tx>, i: Tx) returns (run': seq<State>, actors': seq<Tx>)
    requires IsRun(run, actors) && Running(run[|run| - 1], i)
    requires run[|run| - 1].holder == None || run[|run| - 1].holder == Some(i)
    ensures IsRun(run', actors') && run <= run' && Knows(run[|run| - 1], run'[|run'| - 1], i)
  {
    RunKeepsInv(run, actors, |run| - 1);
    var s := run[|run| - 1];
    assert Waits(s, i);
    match s.txs[i].pc
    case Ready => run', actors' := FromReady(run, actors, i);
    case Missing => run', actors' := FromMissing(run, actors, i);
    case Duplicate => run', actors' := FromDuplicate(run, actors, i);
    case Selected(_) => run', actors' := run, actors;
  }

  /**
   In every run, wherever a transaction stands in its call, first insert and lost race included: when nobody else
   holds the row it can finish the call and commit. The call then returns the next number of its transaction.
   */
  lemma CanFinish(run: seq<State>, actors: seq<Tx>, i: Tx) returns (run': seq<State>, actors': seq<Tx>)
    requires IsRun(run, actors) && Running(run[|run| - 1], i)
    requires run[|run| - 1].holder == None || run[|run| - 1].holder == Some(i)
    ensures IsRun(run', actors') && run <= run'
    ensures var s, s' := run[|run| - 1], run'[|run'| - 1];
            var n := s.row + |s.txs[i].results| + 1;
            s'.holder == None && s'.row == n && s'.commits == s.commits + [s.txs[i].results + [n]]
  {
    run', actors' := ToKnown(run, actors, i);
    RunKeepsInv(run', actors', |run'| - 1);
    var s := run'[|run'| - 1];
    var seen := s.txs[i].pc.seen;
    var next := s.(draft := if s.draft == seen then seen + 1 else s.draft,
                   txs := s.txs[i := TxState(Ready, s.txs[i].results + [seen + 1])]);
    assert Update(s, next, i);
    run', actors' := Go(run', actors', i, next);
    s := next;
    next := s.(txs := At(s, i, Ended), commits := s.commits + [s.txs[i].results], row := s.draft, holder := None);
    assert Commit(s, next, i);
    run', actors' := Go(run', actors', i, next);
  }

  /** In every run, at any time, the next number can be given out: the holder is rolled back and a new transaction gets it. */
  lemma CanIncrement(run: seq<State>, actors: seq<Tx>) returns (run': seq<State>, actors': seq<Tx>)
    requires IsRun(run, actors)
    ensures IsRun(run', actors') && run <= run'
    ensures var s, s' := run[|run| - 1], run'[|run'| - 1];
            s'.holder == None && s'.row == s.row + 1 && s'.commits == s.commits + [[s.row + 1]]
  {
    run', actors' := Free(run, actors);
    var s := run'[|run'| - 1];
    var i := Unused(s.txs.Keys);
    assert i !in s.txs;
    assert Begin(s, s.(txs := s.txs[i := TxState(Ready, [])]), i);
    run', actors' := Go(run', actors', i, s.(txs := s.txs[i := TxState(Ready, [])]));
    run', actors' := CanFinish(run', actors', i);
    assert [] + [s.row + 1] == [s.row + 1];
  }
}
