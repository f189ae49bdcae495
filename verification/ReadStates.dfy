/**
 The read-state reply: the server packs a list of read states into blocks of
 big-endian bits (`store/util.go`), the client unpacks them (`dev/demo/static/index.js`).
 The base64 text around the bytes is left out: it is an inverse pair of library calls.
 */
module ReadStates {
  import opened Bits
  import opened Integers

  /** One block of the reply: its first sequence number, how many states, and their bits. */
  datatype Block = Block(seqNo: int, len: nat, bytes: seq<bv8>)

  /** What a block stands for. */
  datatype Run = Run(seqNo: int, states: seq<bool>)

  type Pair = (int, bool)

  // ----- how the server cuts -----

  /** Whether a block starts at `i`: an upward jump, computed in 32 bits. */
  predicate StartsBlock(seqs: seq<int>, i: nat)
    requires i < |seqs|
  {
    seqs[i] > Int32((if i == 0 then -1 else seqs[i - 1]) + 1)
  }

  function BlockStarts(seqs: seq<int>, n: nat): seq<nat>
    requires n <= |seqs|
  {
    if n == 0 then []
    else BlockStarts(seqs, n - 1) + (if StartsBlock(seqs, n - 1) then [n - 1] else [])
  }

  /** The end of the `i`th block: the next start, or the end of the list. */
  function BlockEnd(starts: seq<nat>, i: nat, n: nat): nat
    requires i < |starts|
  {
    if i + 1 < |starts| then starts[i + 1] else n
  }

  lemma {:induction false} BlockStartsListed(seqs: seq<int>, n: nat)
    requires n <= |seqs|
    ensures forall j :: 0 <= j < |BlockStarts(seqs, n)| ==>
              BlockStarts(seqs, n)[j] < n && StartsBlock(seqs, BlockStarts(seqs, n)[j])
    ensures forall j, k :: 0 <= j < k < |BlockStarts(seqs, n)| ==> BlockStarts(seqs, n)[j] < BlockStarts(seqs, n)[k]
    ensures forall i :: 0 <= i < n && StartsBlock(seqs, i) ==> i in BlockStarts(seqs, n)
  {
    if n > 0 {
      BlockStartsListed(seqs, n - 1);
    }
  }

  /** A row that starts a block opens a run, any other row joins the last run. */
  function Extend(runs: seq<Run>, starts: bool, seqNo: int, state: bool): seq<Run>
  {
    if starts then runs + [Run(seqNo, [state])]
    else if runs == [] then []
    else
      var last := runs[|runs| - 1];
      runs[..|runs| - 1] + [Run(last.seqNo, last.states + [state])]
  }

  /** The blocks of the first `n` rows, without the positions. */
  function Runs(seqs: seq<int>, states: seq<bool>, n: nat): seq<Run>
    requires |seqs| == |states| && n <= |seqs|
  {
    if n == 0 then []
    else Extend(Runs(seqs, states, n - 1), StartsBlock(seqs, n - 1), seqs[n - 1], states[n - 1])
  }

  /** `r` is the slice of both lists from `start` to `end`. */
  ghost predicate CutAt(r: Run, seqs: seq<int>, states: seq<bool>, start: nat, end: nat)
  {
    && start < end <= |seqs| == |states|
    && r == Run(seqs[start], states[start..end])
  }

  ghost predicate CutAtAll(runs: seq<Run>, seqs: seq<int>, states: seq<bool>, starts: seq<nat>, n: nat)
  {
    && |runs| == |starts|
    && forall i :: 0 <= i < |runs| ==> CutAt(runs[i], seqs, states, starts[i], BlockEnd(starts, i, n))
  }

  lemma CutOpens(before: seq<Run>, seqs: seq<int>, states: seq<bool>, starts: seq<nat>, n: nat)
    requires 0 < n <= |seqs| == |states| && CutAtAll(before, seqs, states, starts, n - 1)
    ensures CutAtAll(before + [Run(seqs[n - 1], [states[n - 1]])], seqs, states, starts + [n - 1], n)
  {
    forall i | 0 <= i < |before|
      ensures CutAt(before[i], seqs, states, (starts + [n - 1])[i], BlockEnd(starts + [n - 1], i, n))
    {
      assert CutAt(before[i], seqs, states, starts[i], BlockEnd(starts, i, n - 1));
    }
    assert states[n - 1..n] == [states[n - 1]];
  }

  lemma CutGrows(before: seq<Run>, seqs: seq<int>, states: seq<bool>, starts: seq<nat>, n: nat)
    requires 0 < n <= |seqs| == |states| && CutAtAll(before, seqs, states, starts, n - 1) && before != []
    ensures var last := before[|before| - 1];
            CutAtAll(before[..|before| - 1] + [Run(last.seqNo, last.states + [states[n - 1]])], seqs, states, starts, n)
  {
    var k := |before| - 1;
    var last := before[k];
    var runs := before[..k] + [Run(last.seqNo, last.states + [states[n - 1]])];
    forall i | 0 <= i < |runs| ensures CutAt(runs[i], seqs, states, starts[i], BlockEnd(starts, i, n)) {
      assert CutAt(before[i], seqs, states, starts[i], BlockEnd(starts, i, n - 1));
      if i == k {
        assert states[starts[k]..n] == states[starts[k]..n - 1] + [states[n - 1]];
      }
    }
  }

  /** Cutting at the recorded positions gives the runs. */
  lemma {:induction false} CutAtStarts(seqs: seq<int>, states: seq<bool>, n: nat)
    requires |seqs| == |states| && n <= |seqs|
    ensures CutAtAll(Runs(seqs, states, n), seqs, states, BlockStarts(seqs, n), n)
  {
    if n > 0 {
      CutAtStarts(seqs, states, n - 1);
      CutExtends(Runs(seqs, states, n - 1), seqs, states, BlockStarts(seqs, n - 1), n);
    }
  }

  lemma CutExtends(before: seq<Run>, seqs: seq<int>, states: seq<bool>, starts: seq<nat>, n: nat)
    requires 0 < n <= |seqs| == |states| && CutAtAll(before, seqs, states, starts, n - 1)
    ensures var opens := StartsBlock(seqs, n - 1);
            CutAtAll(Extend(before, opens, seqs[n - 1], states[n - 1]), seqs, states,
                     starts + (if opens then [n - 1] else []), n)
  {
    if StartsBlock(seqs, n - 1) {
      CutOpens(before, seqs, states, starts, n);
    } else if before != [] {
      CutGrows(before, seqs, states, starts, n);
      assert starts + [] == starts;
    }
  }

  ghost predicate Encodes(b: Block, r: Run)
  {
    b.seqNo == r.seqNo && b.len == |r.states| && Packs(b.bytes, r.states)
  }

  ghost predicate EncodesAll(blocks: seq<Block>, runs: seq<Run>)
  {
    |blocks| == |runs| && forall i :: 0 <= i < |blocks| ==> Encodes(blocks[i], runs[i])
  }

  /** The lists reach far enough for the `i`th block. */
  predicate CanCut(seqs: seq<int>, states: seq<bool>, starts: seq<nat>, i: nat)
    requires i < |starts|
  {
    starts[i] < |seqs| && starts[i] <= BlockEnd(starts, i, |states|) <= |states|
  }

  /** What the `i`th block carries. */
  function CutRun(seqs: seq<int>, states: seq<bool>, starts: seq<nat>, i: nat): Run
    requires i < |starts| && CanCut(seqs, states, starts, i)
  {
    Run(seqs[starts[i]], states[starts[i]..BlockEnd(starts, i, |states|)])
  }

  /** Lists of any lengths are cut into `runs` at the positions where blocks start. */
  ghost predicate CutInto(seqs: seq<int>, states: seq<bool>, starts: seq<nat>, runs: seq<Run>)
  {
    && |runs| == |starts|
    && forall i :: 0 <= i < |starts| ==> CanCut(seqs, states, starts, i) && runs[i] == CutRun(seqs, states, starts, i)
  }

  /** The last block starts beyond the states. */
  predicate Beyond(starts: seq<nat>, states: seq<bool>)
  {
    starts != [] && starts[|starts| - 1] > |states|
  }

  /** Equally long lists are cut into the runs. */
  lemma EqualListsAreCut(seqs: seq<int>, states: seq<bool>)
    requires |seqs| == |states|
    ensures !Beyond(BlockStarts(seqs, |seqs|), states)
    ensures CutInto(seqs, states, BlockStarts(seqs, |seqs|), Runs(seqs, states, |seqs|))
  {
    var starts, runs := BlockStarts(seqs, |seqs|), Runs(seqs, states, |seqs|);
    CutAtStarts(seqs, states, |seqs|);
    forall i | 0 <= i < |starts| ensures CanCut(seqs, states, starts, i) && runs[i] == CutRun(seqs, states, starts, i) {
      assert CutAt(runs[i], seqs, states, starts[i], BlockEnd(starts, i, |seqs|));
    }
  }

  /**
   The read states by blocks. Lists of different lengths are cut all the same: the last block gets the
   states that are left. If it starts beyond the last of them, slicing panics.
   */
  method MakeGetReadStatesResp(seqSlice: seq<int>, readStates: seq<bool>)
    returns (panics: bool, blocks: seq<Block>, ghost runs: seq<Run>)
    ensures seqSlice == [] || readStates == [] ==> !panics && blocks == []
    ensures var starts := BlockStarts(seqSlice, |seqSlice|);
            seqSlice != [] && readStates != [] ==>
              && (panics <==> Beyond(starts, readStates))
              && (!panics ==> CutInto(seqSlice, readStates, starts, runs) && EncodesAll(blocks, runs))
    ensures |seqSlice| == |readStates| ==> !panics && EncodesAll(blocks, Runs(seqSlice, readStates, |seqSlice|))
  {
    panics, blocks, runs := false, [], [];
    if |seqSlice| == 0 || |readStates| == 0 {
      return;
    }
    var blockAt: seq<nat> := [];
    var lastSeq := -1;
    for i := 0 to |seqSlice|
      invariant blockAt == BlockStarts(seqSlice, i)
      invariant lastSeq == if i == 0 then -1 else seqSlice[i - 1]
    {
      var seqNo := seqSlice[i];
      if seqNo > Int32(lastSeq + 1) {
        blockAt := blockAt + [i];
      }
      lastSeq := seqNo;
    }
    StartsAscend(seqSlice);
    panics, blocks, runs := MakeBlocks(seqSlice, readStates, blockAt);
    if |seqSlice| == |readStates| {
      EqualListsAreCut(seqSlice, readStates);
      assert runs == Runs(seqSlice, readStates, |seqSlice|);
    }
  }

  ghost predicate AscendWithin(starts: seq<nat>, n: nat)
  {
    && (forall i :: 0 <= i < |starts| ==> starts[i] < n)
    && (forall i, j :: 0 <= i < j < |starts| ==> starts[i] < starts[j])
  }

  lemma StartsAscend(seqs: seq<int>)
    ensures AscendWithin(BlockStarts(seqs, |seqs|), |seqs|)
  {
    BlockStartsListed(seqs, |seqs|);
  }

  /** One block, or a panic of the slice expression. */
  method MakeBlock(seqSlice: seq<int>, readStates: seq<bool>, blockAt: seq<nat>, i: nat) returns (panics: bool, block: Block)
    requires i < |blockAt| && AscendWithin(blockAt, |seqSlice|)
    ensures panics <==> !CanCut(seqSlice, readStates, blockAt, i)
    ensures !panics ==> Encodes(block, CutRun(seqSlice, readStates, blockAt, i))
  {
    var start := blockAt[i];
    var end := |readStates|;
    if i + 1 < |blockAt| {
      end := blockAt[i + 1];
    }
    panics, block := false, Block(0, 0, []);
    if !(start <= end <= |readStates|) {
      return true, block;
    }
    var boolSlice := readStates[start..end];
    var byteSlice := BoolSliceToBytes(boolSlice);
    block := Block(seqSlice[start], |boolSlice|, byteSlice[..]);
  }

  /**
   The second loop of `MakeGetReadStatesResp`. A slice that ends beyond the length, but within the
   capacity, does not panic by itself; the last slice then does, so the model panics at once.
   */
  method MakeBlocks(seqSlice: seq<int>, readStates: seq<bool>, blockAt: seq<nat>)
    returns (panics: bool, blocks: seq<Block>, ghost runs: seq<Run>)
    requires AscendWithin(blockAt, |seqSlice|)
    ensures panics <==> Beyond(blockAt, readStates)
    ensures !panics ==> CutInto(seqSlice, readStates, blockAt, runs) && EncodesAll(blocks, runs)
  {
    panics, blocks, runs := false, [], [];
    for i := 0 to |blockAt|
      invariant |blocks| == |runs| == i && EncodesAll(blocks, runs)
      invariant forall k :: 0 <= k < i ==>
                  CanCut(seqSlice, readStates, blockAt, k) && runs[k] == CutRun(seqSlice, readStates, blockAt, k)
    {
      var block;
      panics, block := MakeBlock(seqSlice, readStates, blockAt, i);
      if panics {
        return;
      }
      blocks, runs := blocks + [block], runs + [CutRun(seqSlice, readStates, blockAt, i)];
    }
    assert blockAt != [] ==> CanCut(seqSlice, readStates, blockAt, |blockAt| - 1);
  }

  // ----- how the client reads -----

  /** The run a block stands for: its bits, cut to the declared length. */
  function Decode(b: Block): Run
  {
    var bools := Unpack(b.bytes);
    Run(b.seqNo, if b.len <= |bools| then bools[..b.len] else bools)
  }

  function DecodeAll(blocks: seq<Block>): seq<Run>
  {
    seq(|blocks|, i requires 0 <= i < |blocks| => Decode(blocks[i]))
  }

  /** A run as the client numbers it: `seqNo`, `seqNo - 1`, and so on down. */
  function RunPairs(r: Run): seq<Pair>
  {
    seq(|r.states|, i requires 0 <= i < |r.states| => (r.seqNo - i, r.states[i]))
  }

  function Pairs(runs: seq<Run>): seq<Pair>
  {
    if runs == [] then [] else Pairs(runs[..|runs| - 1]) + RunPairs(runs[|runs| - 1])
  }

  /** The client's local events after a list of read states arrived: unknown events are skipped. */
  function ApplyPairs(local: map<int, bool>, pairs: seq<Pair>): map<int, bool>
  {
    if pairs == [] then local
    else
      var before := ApplyPairs(local, pairs[..|pairs| - 1]);
      var (s, read) := pairs[|pairs| - 1];
      if s in before then before[s := read] else before
  }

  lemma {:induction false} ApplyPairsAppend(local: map<int, bool>, a: seq<Pair>, b: seq<Pair>)
    ensures ApplyPairs(local, a + b) == ApplyPairs(ApplyPairs(local, a), b)
  {
    if b == [] {
      assert a + b == a;
    } else {
      assert (a + b)[..|a + b| - 1] == a + b[..|b| - 1];
      ApplyPairsAppend(local, a, b[..|b| - 1]);
    }
  }

  method DecodeBlock(block: Block) returns (r: Run)
    ensures r == Decode(block)
  {
    var bools := ByteArrayToBoolArray(block.bytes);
    r := Run(block.seqNo, if block.len <= bools.Length then bools[..block.len] else bools[..]);
  }

  /** The inner loop of the client: number the states of one run down and look each up. */
  method ApplyRun(r: Run, local: map<int, bool>) returns (updated: map<int, bool>)
    ensures updated == ApplyPairs(local, RunPairs(r))
  {
    updated := local;
    ghost var pairs := RunPairs(r);
    for i := 0 to |r.states|
      invariant updated == ApplyPairs(local, pairs[..i])
    {
      var s := r.seqNo - i;
      assert pairs[..i + 1][..i] == pairs[..i];
      if s in updated {
        updated := updated[s := r.states[i]];
      }
    }
    assert pairs[..|r.states|] == pairs;
  }

  lemma ApplyNext(local: map<int, bool>, runs: seq<Run>, n: nat)
    requires n < |runs|
    ensures ApplyPairs(local, Pairs(runs[..n + 1])) == ApplyPairs(ApplyPairs(local, Pairs(runs[..n])), RunPairs(runs[n]))
  {
    assert runs[..n + 1][..n] == runs[..n];
    ApplyPairsAppend(local, Pairs(runs[..n]), RunPairs(runs[n]));
  }

  /** The decode loop of the client. `local` maps the sequence numbers it knows to their read state. */
  method HandleGetReadStatesResp(blocks: seq<Block>, local: map<int, bool>) returns (updated: map<int, bool>)
    ensures updated == ApplyPairs(local, Pairs(DecodeAll(blocks)))
  {
    updated := local;
    ghost var runs := DecodeAll(blocks);
    for n := 0 to |blocks|
      invariant updated == ApplyPairs(local, Pairs(runs[..n]))
    {
      ApplyNext(local, runs, n);
      var r := DecodeBlock(blocks[n]);
      updated := ApplyRun(r, updated);
    }
    assert runs[..|blocks|] == runs;
  }

  // ----- what the reply preserves -----

  /** The bytes carry the runs: nothing is lost between packing and unpacking. */
  lemma WireRoundTrip(blocks: seq<Block>, runs: seq<Run>)
    requires EncodesAll(blocks, runs)
    ensures DecodeAll(blocks) == runs
  {
    forall i | 0 <= i < |blocks| ensures Decode(blocks[i]) == runs[i] {
      assert Encodes(blocks[i], runs[i]);
      UnpackUndoesPacking(blocks[i].bytes, runs[i].states);
    }
  }

  function Zip(seqs: seq<int>, states: seq<bool>): seq<Pair>
    requires |seqs| == |states|
  {
    seq(|seqs|, i requires 0 <= i < |seqs| => (seqs[i], states[i]))
  }

  /** A row that starts no block is numbered one below the row before it. */
  function Number(before: seq<Pair>, starts: bool, seqNo: int, state: bool): seq<Pair>
  {
    if starts then before + [(seqNo, state)]
    else if before == [] then []
    else before + [(before[|before| - 1].0 - 1, state)]
  }

  /** What the client can see of the first `n` rows. */
  function Seen(seqs: seq<int>, states: seq<bool>, n: nat): (p: seq<Pair>)
    requires |seqs| == |states| && n <= |seqs|
    ensures |p| <= n && (n > 0 ==> (|p| == n <==> seqs[0] >= 1))
  {
    if n == 0 then []
    else Number(Seen(seqs, states, n - 1), StartsBlock(seqs, n - 1), seqs[n - 1], states[n - 1])
  }

  /** A list that starts positive is seen with its states in order. */
  lemma {:induction false} SeenStates(seqs: seq<int>, states: seq<bool>, n: nat)
    requires |seqs| == |states| && n <= |seqs| && (n > 0 ==> seqs[0] >= 1)
    ensures forall i :: 0 <= i < n ==> Seen(seqs, states, n)[i].1 == states[i]
  {
    if n > 0 {
      SeenStates(seqs, states, n - 1);
    }
  }

  lemma PairsOpen(runs: seq<Run>, seqNo: int, state: bool)
    ensures Pairs(runs + [Run(seqNo, [state])]) == Pairs(runs) + [(seqNo, state)]
  {
    var r := Run(seqNo, [state]);
    assert (runs + [r])[..|runs|] == runs;
    assert RunPairs(r) == [(seqNo, state)];
  }

  lemma PairsGrow(runs: seq<Run>, r: Run, state: bool)
    requires r.states != []
    ensures Pairs(runs + [Run(r.seqNo, r.states + [state])]) == Pairs(runs + [r]) + [(r.seqNo - |r.states|, state)]
    ensures Pairs(runs + [r]) != []
    ensures Pairs(runs + [r])[|Pairs(runs + [r])| - 1].0 == r.seqNo - (|r.states| - 1)
  {
    var r' := Run(r.seqNo, r.states + [state]);
    assert (runs + [r])[..|runs|] == runs && (runs + [r'])[..|runs|] == runs;
    assert RunPairs(r') == RunPairs(r) + [(r.seqNo - |r.states|, state)];
  }

  predicate LastHasStates(runs: seq<Run>)
  {
    runs == [] || runs[|runs| - 1].states != []
  }

  lemma ExtendNumbers(runs: seq<Run>, starts: bool, seqNo: int, state: bool)
    requires LastHasStates(runs)
    ensures Pairs(Extend(runs, starts, seqNo, state)) == Number(Pairs(runs), starts, seqNo, state)
  {
    if starts {
      PairsOpen(runs, seqNo, state);
    } else if runs != [] {
      var init, last := runs[..|runs| - 1], runs[|runs| - 1];
      assert runs == init + [last];
      PairsGrow(init, last, state);
    }
  }

  lemma {:induction false} RunsHaveStates(seqs: seq<int>, states: seq<bool>, n: nat)
    requires |seqs| == |states| && n <= |seqs|
    ensures LastHasStates(Runs(seqs, states, n))
  {
    if n > 0 {
      RunsHaveStates(seqs, states, n - 1);
    }
  }

  lemma SeesNext(before: seq<Run>, after: seq<Run>, seen: seq<Pair>, next: seq<Pair>, starts: bool, seqNo: int, state: bool)
    requires LastHasStates(before) && after == Extend(before, starts, seqNo, state)
    requires Pairs(before) == seen && next == Number(seen, starts, seqNo, state)
    ensures Pairs(after) == next
  {
    ExtendNumbers(before, starts, seqNo, state);
  }

  /**
   What the client decodes, for every list of rows. A list that begins at a positive
   sequence number keeps every read state, in order; the numbers are those of `Seen`.
   */
  lemma {:induction false} ClientSees(seqs: seq<int>, states: seq<bool>, n: nat)
    requires |seqs| == |states| && n <= |seqs|
    ensures Pairs(Runs(seqs, states, n)) == Seen(seqs, states, n)
  {
    if n == 0 {
      assert Runs(seqs, states, n) == [] && Seen(seqs, states, n) == [];
    } else {
      ClientSees(seqs, states, n - 1);
      RunsHaveStates(seqs, states, n - 1);
      SeesNext(Runs(seqs, states, n - 1), Runs(seqs, states, n), Seen(seqs, states, n - 1), Seen(seqs, states, n),
               StartsBlock(seqs, n - 1), seqs[n - 1], states[n - 1]);
    }
  }

  /** Where no block starts, the list goes down by exactly one. */
  ghost predicate StepsDown(seqs: seq<int>)
  {
    forall i :: 0 < i < |seqs| && !StartsBlock(seqs, i) ==> seqs[i] == seqs[i - 1] - 1
  }

  /** How the client numbers position `i`. */
  lemma {:induction false} SeenAt(seqs: seq<int>, states: seq<bool>, n: nat, i: nat)
    requires |seqs| == |states| && i < n <= |seqs| && seqs[0] >= 1
    ensures var p := Seen(seqs, states, n);
            p[i].0 == if StartsBlock(seqs, i) then seqs[i] else p[i - 1].0 - 1
  {
    assert StartsBlock(seqs, 0);
    if i < n - 1 {
      SeenAt(seqs, states, n - 1, i);
      assert Seen(seqs, states, n)[..n - 1] == Seen(seqs, states, n - 1);
    }
  }

  lemma {:induction false} StepsDownIsSeen(seqs: seq<int>, states: seq<bool>, i: nat)
    requires |seqs| == |states| && i < |seqs| && seqs[0] >= 1 && StepsDown(seqs)
    ensures Seen(seqs, states, |seqs|)[i] == (seqs[i], states[i])
  {
    SeenAt(seqs, states, |seqs|, i);
    SeenStates(seqs, states, |seqs|);
    if !StartsBlock(seqs, i) {
      assert StartsBlock(seqs, 0);
      StepsDownIsSeen(seqs, states, i - 1);
    }
  }

  lemma SeenStepsDown(seqs: seq<int>, states: seq<bool>)
    requires |seqs| == |states| && seqs != [] && seqs[0] >= 1
    requires Seen(seqs, states, |seqs|) == Zip(seqs, states)
    ensures StepsDown(seqs)
  {
    forall i | 0 < i < |seqs| && !StartsBlock(seqs, i) ensures seqs[i] == seqs[i - 1] - 1 {
      SeenAt(seqs, states, |seqs|, i);
      assert Zip(seqs, states)[i].0 == seqs[i] && Zip(seqs, states)[i - 1].0 == seqs[i - 1];
    }
  }

  /**
   The client recovers exactly the rows the server encoded if and only if the list is
   empty, or begins at a positive sequence number and goes down by one wherever it does not jump up.
   */
  lemma RoundTripIff(blocks: seq<Block>, seqs: seq<int>, states: seq<bool>)
    requires |seqs| == |states| && EncodesAll(blocks, Runs(seqs, states, |seqs|))
    ensures Pairs(DecodeAll(blocks)) == Zip(seqs, states) <==> seqs == [] || (seqs[0] >= 1 && StepsDown(seqs))
  {
    WireRoundTrip(blocks, Runs(seqs, states, |seqs|));
    ClientSees(seqs, states, |seqs|);
    if seqs != [] && seqs[0] >= 1 {
      if StepsDown(seqs) {
        forall i | 0 <= i < |seqs| ensures Seen(seqs, states, |seqs|)[i] == Zip(seqs, states)[i] {
          StepsDownIsSeen(seqs, states, i);
        }
      }
      if Seen(seqs, states, |seqs|) == Zip(seqs, states) {
        SeenStepsDown(seqs, states);
      }
    }
  }

  /** Every list that begins at a positive sequence number keeps all its read states, in order. */
  lemma StatesRoundTrip(blocks: seq<Block>, seqs: seq<int>, states: seq<bool>)
    requires |seqs| == |states| && EncodesAll(blocks, Runs(seqs, states, |seqs|))
    requires seqs != [] ==> seqs[0] >= 1
    ensures |Pairs(DecodeAll(blocks))| == |states|
    ensures forall i :: 0 <= i < |states| ==> Pairs(DecodeAll(blocks))[i].1 == states[i]
  {
    WireRoundTrip(blocks, Runs(seqs, states, |seqs|));
    ClientSees(seqs, states, |seqs|);
    SeenStates(seqs, states, |seqs|);
  }

  /** A gapped descending list is misread: the gap starts no block. */
  lemma GapsAreMisread(blocks: seq<Block>, seqs: seq<int>, states: seq<bool>)
    requires seqs == [9, 7] && |states| == 2 && EncodesAll(blocks, Runs(seqs, states, |seqs|))
    ensures Pairs(DecodeAll(blocks)) != Zip(seqs, states)
  {
    RoundTripIff(blocks, seqs, states);
    assert !StartsBlock(seqs, 1);
  }

  ghost predicate Ascending(seqs: seq<int>)
  {
    forall i, j :: 0 <= i < j < |seqs| ==> seqs[i] < seqs[j]
  }

  ghost predicate Descending(seqs: seq<int>)
  {
    forall i, j :: 0 <= i < j < |seqs| ==> seqs[i] > seqs[j]
  }

  /** `seqs[lo..hi]` is a run of consecutive integers that cannot be made longer. */
  ghost predicate MaximalRun(seqs: seq<int>, lo: nat, hi: nat)
  {
    && lo < hi <= |seqs|
    && (forall i :: lo <= i < hi ==> seqs[i] == seqs[lo] + (i - lo))
    && (lo == 0 || seqs[lo - 1] + 1 < seqs[lo])
    && (hi == |seqs| || seqs[hi - 1] + 1 < seqs[hi])
  }

  lemma {:induction false} RunFrom(seqs: seq<int>, lo: nat, i: nat)
    requires Ascending(seqs) && lo <= i < |seqs|
    requires forall k :: 0 <= k < |seqs| ==> 1 <= seqs[k] < MAX_INT32
    requires forall k :: lo < k <= i ==> !StartsBlock(seqs, k)
    ensures seqs[i] == seqs[lo] + (i - lo)
  {
    if lo < i {
      RunFrom(seqs, lo, i - 1);
      assert !StartsBlock(seqs, i);
      assert seqs[i - 1] < seqs[i];
    }
  }

  lemma NoStartInside(seqs: seq<int>, i: nat, k: nat)
    requires i < |BlockStarts(seqs, |seqs|)|
    requires BlockStarts(seqs, |seqs|)[i] < k < BlockEnd(BlockStarts(seqs, |seqs|), i, |seqs|)
    requires k < |seqs|
    ensures !StartsBlock(seqs, k)
  {
    var starts := BlockStarts(seqs, |seqs|);
    BlockStartsListed(seqs, |seqs|);
    assert StartsBlock(seqs, k) ==> k in starts;
  }

  /** On ascending positive 32-bit lists the blocks are exactly the maximal runs, and the first starts the list. */
  lemma AscendingBlocksAreRuns(seqs: seq<int>, i: nat)
    requires i < |BlockStarts(seqs, |seqs|)|
    requires Ascending(seqs) && forall k :: 0 <= k < |seqs| ==> 1 <= seqs[k] < MAX_INT32
    ensures MaximalRun(seqs, BlockStarts(seqs, |seqs|)[i], BlockEnd(BlockStarts(seqs, |seqs|), i, |seqs|))
    ensures BlockStarts(seqs, |seqs|)[0] == 0
  {
    var starts := BlockStarts(seqs, |seqs|);
    BlockStartsListed(seqs, |seqs|);
    var start, end := starts[i], BlockEnd(starts, i, |seqs|);
    assert StartsBlock(seqs, start) && start < end <= |seqs|;
    assert StartsBlock(seqs, 0) && 0 in starts;
    assert end < |seqs| ==> StartsBlock(seqs, end);
    forall k | start < k < end ensures !StartsBlock(seqs, k) {
      NoStartInside(seqs, i, k);
    }
    forall k | start <= k < end ensures seqs[k] == seqs[start] + (k - start) {
      RunFrom(seqs, start, k);
    }
  }

  ghost predicate InRange(seqs: seq<int>)
  {
    forall k :: 0 <= k < |seqs| ==> 1 <= seqs[k] <= MAX_INT32
  }

  /** On a descending list the client never numbers a row too low. */
  lemma {:induction false} SeenNotBelow(seqs: seq<int>, states: seq<bool>, i: nat)
    requires |seqs| == |states| && i < |seqs| && Descending(seqs) && seqs[0] >= 1
    ensures Seen(seqs, states, |seqs|)[i].0 >= seqs[i]
  {
    SeenAt(seqs, states, |seqs|, i);
    assert StartsBlock(seqs, 0);
    if i > 0 {
      SeenNotBelow(seqs, states, i - 1);
    }
  }

  /** From a gap `v` on, it numbers every row too high. */
  lemma {:induction false} SeenAbove(seqs: seq<int>, states: seq<bool>, v: nat, i: nat)
    requires |seqs| == |states| && 0 < v <= i < |seqs| && Descending(seqs) && InRange(seqs)
    requires !StartsBlock(seqs, v) && seqs[v] != seqs[v - 1] - 1
    ensures Seen(seqs, states, |seqs|)[i].0 > seqs[i]
  {
    SeenAt(seqs, states, |seqs|, i);
    if i == v {
      SeenNotBelow(seqs, states, v - 1);
    } else {
      SeenAbove(seqs, states, v, i - 1);
      assert seqs[0] > seqs[i - 1] > seqs[i];
      assert !StartsBlock(seqs, i);
    }
  }

  /** So it never numbers one with the last number of a list with a gap. */
  lemma LastIsMissed(seqs: seq<int>, states: seq<bool>, i: nat)
    requires |seqs| == |states| && i < |seqs| && Descending(seqs) && InRange(seqs) && !StepsDown(seqs)
    ensures Seen(seqs, states, |seqs|)[i].0 > seqs[|seqs| - 1]
  {
    var v :| 0 < v < |seqs| && !StartsBlock(seqs, v) && seqs[v] != seqs[v - 1] - 1;
    if i == |seqs| - 1 {
      SeenAbove(seqs, states, v, i);
    } else {
      SeenNotBelow(seqs, states, i);
      assert seqs[i] > seqs[|seqs| - 1];
    }
  }

  /** A descending list is one block exactly when the 32-bit successor of its head does not wrap. */
  lemma DescendingIsOneBlock(seqs: seq<int>)
    requires seqs != [] && Descending(seqs)
    requires forall k :: 0 <= k < |seqs| ==> 1 <= seqs[k] <= MAX_INT32
    ensures BlockStarts(seqs, |seqs|) == [0] <==> |seqs| == 1 || seqs[0] < MAX_INT32
  {
    BlockStartsListed(seqs, |seqs|);
    var starts := BlockStarts(seqs, |seqs|);
    assert StartsBlock(seqs, 0) && 0 in starts;
    assert starts[0] == 0;
    if |seqs| > 1 && seqs[0] == MAX_INT32 {
      assert Int32(seqs[0] + 1) == -0x8000_0000;
      assert StartsBlock(seqs, 1) && 1 in starts;
    } else {
      forall i | 0 < i < |seqs| ensures !StartsBlock(seqs, i) {
        assert seqs[0] >= seqs[i - 1];
      }
      if |starts| > 1 {
        assert false;
      }
    }
  }
}
