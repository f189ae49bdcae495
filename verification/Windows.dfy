/**
 The window queries on the tables: the read states of a user's events up to a head
 sequence (`GetReadStates`) and the number of unread ones (`Stats`), both from a cutoff on.
 */
module Windows {
  import opened EventTables
  import opened Integers
  import opened ReadStates

  predicate InWindow(t: Tables, u: Uid, s: int, cutoff: Instant)
  {
    Key(u, s) in t.userEvents && t.userEvents[Key(u, s)].createTime >= cutoff
  }

  /** The sequence numbers selected by `getReadStatesSQL`, in descending order. Stored ones are positive. */
  function SelectSeqs(t: Tables, u: Uid, upTo: int, cutoff: Instant): (r: seq<int>)
    ensures forall i :: 0 <= i < |r| ==> 1 <= r[i] <= upTo && InWindow(t, u, r[i], cutoff)
    decreases upTo
  {
    if upTo <= 0 then []
    else (if InWindow(t, u, upTo, cutoff) then [upTo] else []) + SelectSeqs(t, u, upTo - 1, cutoff)
  }

  lemma {:induction false} SelectsDescending(t: Tables, u: Uid, upTo: int, cutoff: Instant)
    ensures Descending(SelectSeqs(t, u, upTo, cutoff))
    decreases upTo
  {
    if upTo > 0 {
      SelectsDescending(t, u, upTo - 1, cutoff);
    }
  }

  lemma {:induction false} SelectsAll(t: Tables, u: Uid, upTo: int, cutoff: Instant, s: int)
    requires 1 <= s <= upTo && InWindow(t, u, s, cutoff)
    ensures s in SelectSeqs(t, u, upTo, cutoff)
    decreases upTo
  {
    if s < upTo {
      SelectsAll(t, u, upTo - 1, cutoff, s);
    }
  }

  /** The read states of the selected rows. */
  function StatesOf(t: Tables, u: Uid, seqs: seq<int>): seq<bool>
    requires forall i :: 0 <= i < |seqs| ==> Key(u, seqs[i]) in t.userEvents
  {
    seq(|seqs|, i requires 0 <= i < |seqs| => t.userEvents[Key(u, seqs[i])].read)
  }

  function SelectStates(t: Tables, u: Uid, upTo: int, cutoff: Instant): seq<bool>
  {
    StatesOf(t, u, SelectSeqs(t, u, upTo, cutoff))
  }

  /** The reply for the selected rows. */
  function Reply(t: Tables, u: Uid, upTo: int, cutoff: Instant): seq<Run>
  {
    var seqs := SelectSeqs(t, u, upTo, cutoff);
    Runs(seqs, StatesOf(t, u, seqs), |seqs|)
  }

  /** The rows counted by `countUnreadSQL`. */
  function UnreadKeys(t: Tables, u: Uid, cutoff: Instant): set<Key>
  {
    set k | k in t.userEvents && k.uid == u && t.userEvents[k].createTime >= cutoff && !t.userEvents[k].read
  }

  function CountUnread(t: Tables, u: Uid, cutoff: Instant): nat
  {
    |UnreadKeys(t, u, cutoff)|
  }

  function CountFalse(states: seq<bool>): nat
  {
    if states == [] then 0 else (if states[0] then 0 else 1) + CountFalse(states[1..])
  }

  lemma CountFalseCons(b: bool, rest: seq<bool>)
    ensures CountFalse([b] + rest) == (if b then 0 else 1) + CountFalse(rest)
  {
    assert ([b] + rest)[1..] == rest;
  }

  function CountFalsePairs(pairs: seq<Pair>): nat
  {
    if pairs == [] then 0 else (if pairs[0].1 then 0 else 1) + CountFalsePairs(pairs[1..])
  }

  lemma {:induction false} CountsAgree(pairs: seq<Pair>, states: seq<bool>)
    requires |pairs| == |states| && forall i :: 0 <= i < |pairs| ==> pairs[i].1 == states[i]
    ensures CountFalsePairs(pairs) == CountFalse(states)
  {
    if pairs != [] {
      CountsAgree(pairs[1..], states[1..]);
    }
  }

  function UnreadUpTo(t: Tables, u: Uid, upTo: int, cutoff: Instant): set<Key>
  {
    set k | k in UnreadKeys(t, u, cutoff) && 1 <= k.seqNo <= upTo
  }

  lemma SelectStatesStep(t: Tables, u: Uid, upTo: int, cutoff: Instant)
    requires upTo > 0
    ensures SelectStates(t, u, upTo, cutoff) ==
            (if InWindow(t, u, upTo, cutoff) then [t.userEvents[Key(u, upTo)].read] else []) +
            SelectStates(t, u, upTo - 1, cutoff)
  {
  }

  lemma UnreadStep(t: Tables, u: Uid, upTo: int, cutoff: Instant)
    requires upTo > 0
    ensures |UnreadUpTo(t, u, upTo, cutoff)| ==
            |UnreadUpTo(t, u, upTo - 1, cutoff)| +
            if InWindow(t, u, upTo, cutoff) && !t.userEvents[Key(u, upTo)].read then 1 else 0
  {
    var top := Key(u, upTo);
    assert UnreadUpTo(t, u, upTo, cutoff) - {top} == UnreadUpTo(t, u, upTo - 1, cutoff);
  }

  lemma {:induction false} SelectedUnread(t: Tables, u: Uid, upTo: int, cutoff: Instant)
    ensures CountFalse(SelectStates(t, u, upTo, cutoff)) == |UnreadUpTo(t, u, upTo, cutoff)|
    decreases upTo
  {
    if upTo > 0 {
      SelectedUnread(t, u, upTo - 1, cutoff);
      SelectStatesStep(t, u, upTo, cutoff);
      UnreadStep(t, u, upTo, cutoff);
      var rest := SelectStates(t, u, upTo - 1, cutoff);
      if InWindow(t, u, upTo, cutoff) {
        CountFalseCons(t.userEvents[Key(u, upTo)].read, rest);
      } else {
        assert [] + rest == rest;
      }
    } else {
      assert UnreadUpTo(t, u, upTo, cutoff) == {};
    }
  }

  /**
   The unread count of `Stats` is the number of zero bits inside the declared lengths of
   the read-state reply, for the same cutoff and any head sequence at or above the user's.
   */
  lemma UnreadCountIsZeroBits(t: Tables, u: Uid, upTo: int, cutoff: Instant, blocks: seq<Block>)
    requires Valid(t) && upTo >= Head(t, u)
    requires EncodesAll(blocks, Reply(t, u, upTo, cutoff))
    ensures CountFalsePairs(Pairs(DecodeAll(blocks))) == CountUnread(t, u, cutoff)
  {
    StatesRoundTrip(blocks, SelectSeqs(t, u, upTo, cutoff), SelectStates(t, u, upTo, cutoff));
    CountsAgree(Pairs(DecodeAll(blocks)), SelectStates(t, u, upTo, cutoff));
    SelectedUnread(t, u, upTo, cutoff);
    assert UnreadKeys(t, u, cutoff) == UnreadUpTo(t, u, upTo, cutoff);
  }

  /**
   `SetRead` changes something exactly when it finds an unread row. It then lowers the
   unread count of that user by one when the row is inside the window, and no other count.
   */
  lemma SetReadLowersTheCount(t: Tables, k: Key, u: Uid, cutoff: Instant)
    ensures CountUnread(SetRead(t, k), u, cutoff) ==
            CountUnread(t, u, cutoff) -
            (if Unread(t, k) && k.uid == u && t.userEvents[k].createTime >= cutoff then 1 else 0)
    ensures SetRead(t, k) != t <==> Unread(t, k)
  {
    var t' := SetRead(t, k);
    if Unread(t, k) {
      assert t'.userEvents.Keys == t.userEvents.Keys;
      assert t'.userEvents[k].read && !t.userEvents[k].read;
      if k.uid == u && t.userEvents[k].createTime >= cutoff {
        assert UnreadKeys(t, u, cutoff) == UnreadKeys(t', u, cutoff) + {k};
      } else {
        assert UnreadKeys(t, u, cutoff) == UnreadKeys(t', u, cutoff);
      }
    }
  }

  // ----- contiguous windows -----

  ghost predicate Contiguous(seqs: seq<int>)
  {
    forall i :: 0 < i < |seqs| ==> seqs[i] == seqs[i - 1] - 1
  }

  /** The selected numbers of a user that lie between two selected ones are selected too. */
  ghost predicate Convex(t: Tables, u: Uid, cutoff: Instant)
  {
    forall a, b, c :: a <= b <= c && InWindow(t, u, a, cutoff) && InWindow(t, u, c, cutoff) ==> InWindow(t, u, b, cutoff)
  }

  lemma ConvexIsContiguous(t: Tables, u: Uid, upTo: int, cutoff: Instant)
    requires Convex(t, u, cutoff)
    ensures Contiguous(SelectSeqs(t, u, upTo, cutoff))
  {
    var r := SelectSeqs(t, u, upTo, cutoff);
    SelectsDescending(t, u, upTo, cutoff);
    forall i | 0 < i < |r| ensures r[i] == r[i - 1] - 1 {
      assert r[i - 1] > r[i];
      assert InWindow(t, u, r[i], cutoff) && InWindow(t, u, r[i - 1], cutoff);
      assert InWindow(t, u, r[i] + 1, cutoff);
      SelectsAll(t, u, upTo, cutoff, r[i] + 1);
    }
  }

  /** The local read states of a client agree with the rows, and other events are untouched. */
  ghost predicate Caught(t: Tables, u: Uid, upTo: int, cutoff: Instant, local: map<int, bool>, updated: map<int, bool>)
  {
    && updated.Keys == local.Keys
    && forall s | s in local ::
         updated[s] == if 1 <= s <= upTo && InWindow(t, u, s, cutoff) then t.userEvents[Key(u, s)].read else local[s]
  }

  lemma {:induction false} AppliedRows(t: Tables, u: Uid, seqs: seq<int>, local: map<int, bool>)
    requires Descending(seqs) && forall i :: 0 <= i < |seqs| ==> Key(u, seqs[i]) in t.userEvents
    ensures var updated := ApplyPairs(local, Zip(seqs, StatesOf(t, u, seqs)));
            && updated.Keys == local.Keys
            && forall s | s in local :: updated[s] == if s in seqs then t.userEvents[Key(u, s)].read else local[s]
  {
    if seqs != [] {
      var n := |seqs| - 1;
      AppliedRows(t, u, seqs[..n], local);
      assert Zip(seqs, StatesOf(t, u, seqs))[..n] == Zip(seqs[..n], StatesOf(t, u, seqs[..n]));
      assert seqs == seqs[..n] + [seqs[n]];
    }
  }

  /** Below the largest 32-bit number, the reply for any window is at most one block. */
  lemma AtMostOneBlock(t: Tables, u: Uid, upTo: int, cutoff: Instant)
    requires Valid(t) && Head(t, u) < MAX_INT32
    ensures |Reply(t, u, upTo, cutoff)| <= 1
  {
    var seqs := SelectSeqs(t, u, upTo, cutoff);
    SelectsDescending(t, u, upTo, cutoff);
    if seqs != [] {
      CutAtStarts(seqs, StatesOf(t, u, seqs), |seqs|);
      forall k | 0 <= k < |seqs| ensures 1 <= seqs[k] <= Head(t, u) {
        assert InWindow(t, u, seqs[k], cutoff);
      }
      DescendingIsOneBlock(seqs);
    }
  }

  /** Whatever read states a client has, it ends up with those of the rows. */
  ghost predicate AlwaysCaught(t: Tables, u: Uid, upTo: int, cutoff: Instant, blocks: seq<Block>)
  {
    forall local :: Caught(t, u, upTo, cutoff, local, ApplyPairs(local, Pairs(DecodeAll(blocks))))
  }

  lemma SelectedExactly(t: Tables, u: Uid, upTo: int, cutoff: Instant, s: int)
    ensures s in SelectSeqs(t, u, upTo, cutoff) <==> 1 <= s <= upTo && InWindow(t, u, s, cutoff)
  {
    if 1 <= s <= upTo && InWindow(t, u, s, cutoff) {
      SelectsAll(t, u, upTo, cutoff, s);
    }
  }

  lemma StepsDownIsCaught(t: Tables, u: Uid, upTo: int, cutoff: Instant, blocks: seq<Block>, local: map<int, bool>)
    requires EncodesAll(blocks, Reply(t, u, upTo, cutoff)) && StepsDown(SelectSeqs(t, u, upTo, cutoff))
    ensures Caught(t, u, upTo, cutoff, local, ApplyPairs(local, Pairs(DecodeAll(blocks))))
  {
    var seqs := SelectSeqs(t, u, upTo, cutoff);
    SelectsDescending(t, u, upTo, cutoff);
    RoundTripIff(blocks, seqs, StatesOf(t, u, seqs));
    AppliedRows(t, u, seqs, local);
    forall s | s in local ensures s in seqs <==> 1 <= s <= upTo && InWindow(t, u, s, cutoff) {
      SelectedExactly(t, u, upTo, cutoff, s);
    }
  }

  lemma {:induction false} Unapplied(local: map<int, bool>, pairs: seq<Pair>, s: int)
    requires s in local && forall i :: 0 <= i < |pairs| ==> pairs[i].0 != s
    ensures s in ApplyPairs(local, pairs) && ApplyPairs(local, pairs)[s] == local[s]
  {
    if pairs != [] {
      Unapplied(local, pairs[..|pairs| - 1], s);
    }
  }

  lemma LastIsUnapplied(seqs: seq<int>, states: seq<bool>, local: map<int, bool>)
    requires |seqs| == |states| && Descending(seqs) && InRange(seqs) && !StepsDown(seqs) && seqs[|seqs| - 1] in local
    ensures var updated := ApplyPairs(local, Seen(seqs, states, |seqs|));
            seqs[|seqs| - 1] in updated && updated[seqs[|seqs| - 1]] == local[seqs[|seqs| - 1]]
  {
    var seen := Seen(seqs, states, |seqs|);
    forall i | 0 <= i < |seen| ensures seen[i].0 != seqs[|seqs| - 1] {
      LastIsMissed(seqs, states, i);
    }
    Unapplied(local, seen, seqs[|seqs| - 1]);
  }

  /** A gap in the window: the client never learns the state of the last row. */
  lemma GapIsNotCaught(t: Tables, u: Uid, upTo: int, cutoff: Instant, blocks: seq<Block>)
    requires Valid(t) && EncodesAll(blocks, Reply(t, u, upTo, cutoff)) && !StepsDown(SelectSeqs(t, u, upTo, cutoff))
    ensures !AlwaysCaught(t, u, upTo, cutoff, blocks)
  {
    var seqs := SelectSeqs(t, u, upTo, cutoff);
    var states := StatesOf(t, u, seqs);
    SelectsDescending(t, u, upTo, cutoff);
    SelectedInRange(t, u, upTo, cutoff);
    WireRoundTrip(blocks, Runs(seqs, states, |seqs|));
    ClientSees(seqs, states, |seqs|);
    var last := seqs[|seqs| - 1];
    var local := map[last := !t.userEvents[Key(u, last)].read];
    LastIsUnapplied(seqs, states, local);
    assert InWindow(t, u, last, cutoff);
    assert !Caught(t, u, upTo, cutoff, local, ApplyPairs(local, Pairs(DecodeAll(blocks))));
  }

  lemma SelectedInRange(t: Tables, u: Uid, upTo: int, cutoff: Instant)
    requires Valid(t)
    ensures InRange(SelectSeqs(t, u, upTo, cutoff))
    ensures forall i :: 0 <= i < |SelectSeqs(t, u, upTo, cutoff)| ==> SelectSeqs(t, u, upTo, cutoff)[i] <= Head(t, u)
  {
    var seqs := SelectSeqs(t, u, upTo, cutoff);
    forall i | 0 <= i < |seqs| ensures 1 <= seqs[i] <= Head(t, u) <= MAX_INT32 {
      assert InWindow(t, u, seqs[i], cutoff);
    }
  }

  /** Below the largest 32-bit number, a descending list goes down by one wherever no block starts if and only if it has no gap. */
  lemma StepsDownIsContiguous(seqs: seq<int>)
    requires Descending(seqs) && InRange(seqs) && (seqs != [] ==> seqs[0] < MAX_INT32)
    ensures StepsDown(seqs) <==> Contiguous(seqs)
  {
    forall i | 0 < i < |seqs| ensures !StartsBlock(seqs, i) {
      assert seqs[0] >= seqs[i - 1];
    }
  }

  /**
   End to end, for any window: whatever read states the client has, it ends up with exactly those of the rows, and
   leaves its other events alone, if and only if the selected numbers go down by one wherever no block starts. Below
   the largest 32-bit number that means that they have no gap.
   */
  lemma WindowRoundTripIff(t: Tables, u: Uid, upTo: int, cutoff: Instant, blocks: seq<Block>)
    requires Valid(t) && EncodesAll(blocks, Reply(t, u, upTo, cutoff))
    ensures AlwaysCaught(t, u, upTo, cutoff, blocks) <==> StepsDown(SelectSeqs(t, u, upTo, cutoff))
    ensures Head(t, u) < MAX_INT32 ==>
              (AlwaysCaught(t, u, upTo, cutoff, blocks) <==> Contiguous(SelectSeqs(t, u, upTo, cutoff)))
  {
    var seqs := SelectSeqs(t, u, upTo, cutoff);
    if StepsDown(seqs) {
      forall local {
        StepsDownIsCaught(t, u, upTo, cutoff, blocks, local);
      }
    } else {
      GapIsNotCaught(t, u, upTo, cutoff, blocks);
    }
    if Head(t, u) < MAX_INT32 {
      SelectsDescending(t, u, upTo, cutoff);
      SelectedInRange(t, u, upTo, cutoff);
      StepsDownIsContiguous(seqs);
    }
  }

  /** When the window of a user is convex, the client ends up with exactly the read states of its rows. */
  lemma ConvexWindowRoundTrip(t: Tables, u: Uid, upTo: int, cutoff: Instant, blocks: seq<Block>, local: map<int, bool>)
    requires Convex(t, u, cutoff) && EncodesAll(blocks, Reply(t, u, upTo, cutoff))
    ensures Caught(t, u, upTo, cutoff, local, ApplyPairs(local, Pairs(DecodeAll(blocks))))
  {
    ConvexIsContiguous(t, u, upTo, cutoff);
    StepsDownIsCaught(t, u, upTo, cutoff, blocks, local);
  }

  // ----- cleaning -----

  /** `t` is `full` without some rows that are all at or before `cutoff`. */
  ghost predicate CleanedFrom(t: Tables, full: Tables, cutoff: Instant)
  {
    && t.userSeq == full.userSeq
    && (forall k | k in t.userEvents :: k in full.userEvents && t.userEvents[k] == full.userEvents[k])
    && (forall k | k in full.userEvents && k !in t.userEvents :: full.userEvents[k].createTime <= cutoff)
  }

  lemma {:induction false} SameSelection(t: Tables, full: Tables, u: Uid, upTo: int, cutoff: Instant, cleanedTo: Instant)
    requires CleanedFrom(t, full, cleanedTo) && cleanedTo < cutoff
    ensures SelectSeqs(t, u, upTo, cutoff) == SelectSeqs(full, u, upTo, cutoff)
    decreases upTo
  {
    if upTo > 0 {
      SameSelection(t, full, u, upTo - 1, cutoff, cleanedTo);
    }
  }

  /** Rows cleaned before a window opens are invisible in it: same head, same count, same reply. */
  lemma CleaningIsInvisible(t: Tables, full: Tables, u: Uid, upTo: int, cutoff: Instant, cleanedTo: Instant)
    requires CleanedFrom(t, full, cleanedTo) && cleanedTo < cutoff
    ensures Head(t, u) == Head(full, u)
    ensures CountUnread(t, u, cutoff) == CountUnread(full, u, cutoff)
    ensures Reply(t, u, upTo, cutoff) == Reply(full, u, upTo, cutoff)
  {
    SameSelection(t, full, u, upTo, cutoff, cleanedTo);
    assert UnreadKeys(t, u, cutoff) == UnreadKeys(full, u, cutoff);
    var seqs := SelectSeqs(t, u, upTo, cutoff);
    forall i | 0 <= i < |seqs| ensures t.userEvents[Key(u, seqs[i])] == full.userEvents[Key(u, seqs[i])] {
      assert InWindow(t, u, seqs[i], cutoff);
    }
    assert StatesOf(t, u, seqs) == StatesOf(full, u, seqs);
  }

  /** A clean at the cutoff of a window takes the unread rows created exactly at the cutoff out of the count. */
  lemma CleanAtTheCutoff(t: Tables, u: Uid, cutoff: Instant)
    requires Valid(t)
    ensures CountUnread(Clean(t, cutoff), u, cutoff) ==
            CountUnread(t, u, cutoff) - |set k | k in UnreadKeys(t, u, cutoff) && t.userEvents[k].createTime == cutoff|
  {
    var gone := set k | k in UnreadKeys(t, u, cutoff) && t.userEvents[k].createTime == cutoff;
    assert UnreadKeys(Clean(t, cutoff), u, cutoff) == UnreadKeys(t, u, cutoff) - gone;
    assert gone <= UnreadKeys(t, u, cutoff);
  }
}
