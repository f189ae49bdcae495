/**
 The event store (`store/event.go`): the transactions as they run on the tables, one
 statement after the other. Each is proved to do what the functions of `EventTables` and `Windows` say.
 A `Commit` argument stands for the outcome of the database commit.
 */
module EventStore {
  import opened EventTables
  import opened Integers
  import opened ReadStates
  import opened Windows

  class EventStore {
    var events: map<Offset, EventRow>
    var userEvents: map<Key, UserEventRow>
    var userSeq: map<Uid, nat>

    function Contents(): Tables
      reads this
    {
      Tables(events, userEvents, userSeq)
    }

    constructor ()
      ensures Contents() == EMPTY
    {
      events, userEvents, userSeq := map[], map[], map[];
    }

    /** `Rollback`: the tables as they were when the transaction began. */
    method Restore(t: Tables)
      modifies this
      ensures Contents() == t
    {
      events, userEvents, userSeq := t.events, t.userEvents, t.userSeq;
    }

    /**
     Select the row for update; insert it when missing, or select again when another
     transaction inserted it first; then update it where it still has the value seen.
     */
    method IncSeq(uid: Uid) returns (ok: bool, seqNo: int)
      requires forall u | u in userSeq :: 0 <= u && userSeq[u] <= MAX_INT32
      modifies `userSeq
      ensures ok <==> 0 <= uid
      ensures ok ==> userSeq == old(userSeq)[uid := Head(old(Contents()), uid) + 1]
      ensures ok ==> seqNo == Int32(Head(old(Contents()), uid) + 1)
      ensures !ok ==> userSeq == old(userSeq)
    {
      var s := 0;
      if uid in userSeq {
        s := userSeq[uid];
      }
      if s == 0 {
        if uid < 0 {
          return false, -1;
        } else if uid in userSeq {
          s := userSeq[uid];
        } else {
          userSeq := userSeq[uid := 1];
        }
      }
      if uid in userSeq && userSeq[uid] == s {
        userSeq := userSeq[uid := s + 1];
      }
      return true, Int32(s + 1);
    }

    /** One turn of the recipient loop. */
    method Deliver(uid: Uid, createTime: Instant, offset: Offset) returns (seqNo: int, error: bool, cause: SaveError)
      requires Valid(Contents()) && offset in events && events[offset].createTime == createTime
      modifies this
      ensures events == old(events)
      ensures !error ==> Valid(Contents())
      ensures match AllocateOne(old(Contents()), uid, createTime, offset)
              case Allocated(t) => !error && Contents() == t && seqNo == Head(t, uid)
              case Refused(e) => error && cause == e
    {
      OneExtends(Contents(), uid, createTime, offset);
      seqNo, error, cause := 0, false, OutOfRange;
      var ok;
      ok, seqNo := IncSeq(uid);
      if !ok || seqNo < 0 {
        error := true;
      } else if Key(uid, seqNo) in userEvents {
        error, cause := true, DuplicateKey;
      } else {
        userEvents := userEvents[Key(uid, seqNo) := UserEventRow(createTime, false, offset)];
      }
    }

    /** The recipient loop of `Save`. */
    method DeliverAll(e: Event) returns (seqMap: map<Uid, int>, error: bool, cause: SaveError)
      requires Valid(Contents()) && e.offset in events && events[e.offset].createTime == e.createTime
      modifies this
      ensures match AllocateAll(old(Contents()), e.to, e.createTime, e.offset)
              case Allocated(t) => !error && Contents() == t && seqMap == HeadsOf(t, e.to)
              case Refused(c) => error && cause == c
    {
      seqMap, error, cause := map[], false, OutOfRange;
      ghost var begun := Contents();
      for i := 0 to |e.to|
        invariant Valid(Contents()) && events == begun.events
        invariant AllocateAll(begun, e.to[..i], e.createTime, e.offset) == Allocated(Contents())
        invariant seqMap == HeadsOf(Contents(), e.to[..i])
        invariant !error
      {
        ghost var t := Contents();
        AllocateNext(begun, e.to, i, e.createTime, e.offset, t);
        var seqNo;
        seqNo, error, cause := Deliver(e.to[i], e.createTime, e.offset);
        if error {
          RefusedFromPrefix(begun, e.to, i + 1, e.createTime, e.offset);
          return;
        }
        HeadsGrow(t, e.to, i, e.createTime, e.offset);
        seqMap := seqMap[e.to[i] := seqNo];
      }
      assert e.to[..|e.to|] == e.to;
    }

    method Save(e: Event, commit: Commit) returns (r: SaveResult)
      requires Valid(Contents())
      modifies this
      ensures (Contents(), r) == EventTables.Save(old(Contents()), e, commit)
      ensures Valid(Contents())
    {
      var before := Contents();
      if e.offset in events {
        if commit == Interrupted {
          return Failed(DuplicateKey);
        }
        var row := events[e.offset];
        if Milliseconds(row.createTime) == Milliseconds(e.createTime) && row.payload == e.payload {
          r := if commit == Committed then Saved(map[]) else Failed(CommitFailed);
        } else {
          r := Failed(DuplicateKey);
        }
        return;
      }

      SaveInserts(before, e, commit);
      events := events[e.offset := EventRow(e.createTime, e.payload)];
      var seqMap, error, cause := DeliverAll(e);
      if error {
        Restore(before);
        return Failed(cause);
      }
      match commit
      case Committed => r := Saved(seqMap);
      case NotCommitted => Restore(before); r := Failed(CommitFailed);
      case CommittedButFailed => r := Failed(CommitFailed);
      case Interrupted => Restore(before); r := Failed(CommitFailed);
    }

    method DeleteOutdatedEvents(cutoff: Instant, commit: Commit) returns (deleted: nat, ok: bool)
      requires Valid(Contents())
      modifies this
      ensures Contents() == if Applied(commit) then Clean(old(Contents()), cutoff) else old(Contents())
      ensures Valid(Contents())
      ensures ok <==> commit == Committed
      ensures ok ==> deleted == |old(events)| - |events|
    {
      CleanKeepsValid(Contents(), cutoff);
      deleted, ok := 0, commit == Committed;
      if Applied(commit) {
        var kept, gone := Kept(events, cutoff), Gone(events, cutoff);
        KeptAndGone(events, cutoff);
        if ok {
          deleted := |gone|;
        }
        userEvents := map k | k in userEvents && userEvents[k].offset in kept :: userEvents[k];
        events := kept;
      }
    }

    method SetRead(uid: Uid, seqNo: int, commit: Commit) returns (changed: bool, ok: bool)
      requires Valid(Contents())
      modifies `userEvents
      ensures Contents() == if Applied(commit) then EventTables.SetRead(old(Contents()), Key(uid, seqNo))
                            else old(Contents())
      ensures Valid(Contents())
      ensures ok <==> commit == Committed
      ensures ok ==> (changed <==> Unread(old(Contents()), Key(uid, seqNo)))
    {
      SetReadKeepsValid(Contents(), Key(uid, seqNo));
      var k := Key(uid, seqNo);
      ok := commit == Committed;
      changed := k in userEvents && !userEvents[k].read;
      if changed && Applied(commit) {
        userEvents := userEvents[k := userEvents[k].(read := true)];
      }
    }

    method Stats(uid: Uid, countUnread: bool, cutoff: Instant) returns (headSeq: nat, unreadCount: nat)
      ensures headSeq == Head(Contents(), uid)
      ensures unreadCount == if countUnread then CountUnread(Contents(), uid, cutoff) else 0
    {
      headSeq := if uid in userSeq then userSeq[uid] else 0;
      unreadCount := 0;
      if countUnread {
        var rows := set k | k in userEvents && k.uid == uid && userEvents[k].createTime >= cutoff && !userEvents[k].read;
        assert rows == UnreadKeys(Contents(), uid, cutoff);
        unreadCount := |rows|;
      }
    }

    method GetReadStates(uid: Uid, headSeq: int, cutoff: Instant) returns (blocks: seq<Block>)
      ensures EncodesAll(blocks, Reply(Contents(), uid, headSeq, cutoff))
    {
      var rows := SelectSeqs(Contents(), uid, headSeq, cutoff);
      assert forall i :: 0 <= i < |rows| ==> InWindow(Contents(), uid, rows[i], cutoff);
      var seqSlice, readStates := ScanRows(uid, rows);
      var panics;
      ghost var runs;
      panics, blocks, runs := MakeGetReadStatesResp(seqSlice, readStates);
    }

    /** The rows arrive in descending order of `seq`; the loop splits them into two lists. */
    method ScanRows(uid: Uid, rows: seq<int>) returns (seqSlice: seq<int>, readStates: seq<bool>)
      requires forall i :: 0 <= i < |rows| ==> Key(uid, rows[i]) in userEvents
      ensures seqSlice == rows && readStates == StatesOf(Contents(), uid, rows)
    {
      seqSlice, readStates := [], [];
      for i := 0 to |rows|
        invariant seqSlice == rows[..i]
        invariant |readStates| == i && forall j :: 0 <= j < i ==> readStates[j] == userEvents[Key(uid, rows[j])].read
      {
        seqSlice := seqSlice + [rows[i]];
        readStates := readStates + [userEvents[Key(uid, rows[i])].read];
      }
    }
  }

  function Kept(events: map<Offset, EventRow>, cutoff: Instant): map<Offset, EventRow>
  {
    map o | o in events && events[o].createTime > cutoff :: events[o]
  }

  function Gone(events: map<Offset, EventRow>, cutoff: Instant): set<Offset>
  {
    set o | o in events && events[o].createTime <= cutoff
  }

  lemma KeptAndGone(events: map<Offset, EventRow>, cutoff: Instant)
    ensures |Kept(events, cutoff)| + |Gone(events, cutoff)| == |events|
  {
    var kept, gone := Kept(events, cutoff), Gone(events, cutoff);
    assert events.Keys == kept.Keys + gone && kept.Keys !! gone;
    assert |events.Keys| == |events| && |kept.Keys| == |kept|;
  }

  lemma AllocateNext(begun: Tables, to: seq<Uid>, i: nat, createTime: Instant, offset: Offset, t: Tables)
    requires i < |to| && AllocateAll(begun, to[..i], createTime, offset) == Allocated(t)
    ensures AllocateAll(begun, to[..i + 1], createTime, offset) == AllocateOne(t, to[i], createTime, offset)
  {
    assert to[..i + 1][..i] == to[..i];
  }

  lemma HeadsGrow(t: Tables, to: seq<Uid>, i: nat, createTime: Instant, offset: Offset)
    requires i < |to| && AllocateOne(t, to[i], createTime, offset).Allocated?
    ensures var t' := AllocateOne(t, to[i], createTime, offset).tables;
            HeadsOf(t', to[..i + 1]) == HeadsOf(t, to[..i])[to[i] := Head(t', to[i])]
  {
    assert to[..i + 1] == to[..i] + [to[i]];
  }

  lemma {:induction false} RefusedFromPrefix(t: Tables, to: seq<Uid>, n: nat, createTime: Instant, offset: Offset)
    requires n <= |to| && AllocateAll(t, to[..n], createTime, offset).Refused?
    ensures AllocateAll(t, to, createTime, offset) == AllocateAll(t, to[..n], createTime, offset)
    decreases |to|
  {
    if n < |to| {
      assert to[..|to| - 1][..n] == to[..n];
      RefusedFromPrefix(t, to[..|to| - 1], n, createTime, offset);
    } else {
      assert to[..n] == to;
    }
  }
}
