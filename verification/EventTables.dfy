/**
 The tables `events`, `user_events` and `user_seq` as values, and what each
 transaction of the event store does to them.

 Instants are nanoseconds. A `DATETIME(3)` column is compared with instants, which
 is what the Unix seconds bound by the cleaner and by the window queries stand for.
 */
module EventTables {
  import opened Integers

  type Uid = int
  type Offset = nat
  type Instant = int

  const MILLISECOND: nat := 1_000_000
  const SECOND: nat := 1_000_000_000
  const DAY: nat := 86_400 * SECOND

  /** An event taken from the Kafka topic, to be split over its recipients. */
  datatype Event = Event(offset: Offset, createTime: Instant, payload: string, to: seq<Uid>)

  datatype EventRow = EventRow(createTime: Instant, payload: string)

  /** The primary key of `user_events`. */
  datatype Key = Key(uid: Uid, seqNo: int)

  datatype UserEventRow = UserEventRow(createTime: Instant, read: bool, offset: Offset)

  datatype Tables = Tables(
    events: map<Offset, EventRow>,
    userEvents: map<Key, UserEventRow>,
    userSeq: map<Uid, nat>)

  const EMPTY := Tables(map[], map[], map[])

  datatype SaveError = DuplicateKey | OutOfRange | CommitFailed

  /**
   How a transaction ends: what its client sees, and what the database did, at `Commit`. `Interrupted`: it does
   not get there, because a query after the first statement fails, as when the connection is lost or the context cancelled.
   */
  datatype Commit = Committed | NotCommitted | CommittedButFailed | Interrupted

  predicate Applied(c: Commit)
  {
    c == Committed || c == CommittedButFailed
  }

  datatype SaveResult = Saved(seqMap: map<Uid, int>) | Failed(error: SaveError)

  datatype Allocation = Allocated(tables: Tables) | Refused(error: SaveError)

  /** The head sequence of a user, 0 when the user has no row. */
  function Head(t: Tables, u: Uid): nat
  {
    if u in t.userSeq then t.userSeq[u] else 0
  }

  /** The truncated millisecond of an instant, as `UnixNano()/1e6`. */
  function Milliseconds(i: Instant): (m: int)
    ensures if i >= 0 then 0 <= i - m * MILLISECOND < MILLISECOND else 0 <= m * MILLISECOND - i < MILLISECOND
  {
    if i >= 0 then i / MILLISECOND else -((-i) / MILLISECOND)
  }

  /** One turn of the recipient loop of `Save`: the next sequence number and its row. */
  function AllocateOne(t: Tables, u: Uid, createTime: Instant, offset: Offset): Allocation
  {
    var s := Head(t, u) + 1;
    if u < 0 || s > MAX_INT32 then Refused(OutOfRange)
    else if Key(u, s) in t.userEvents then Refused(DuplicateKey)
    else Allocated(t.(userSeq := t.userSeq[u := s],
                      userEvents := t.userEvents[Key(u, s) := UserEventRow(createTime, false, offset)]))
  }

  function AllocateAll(t: Tables, to: seq<Uid>, createTime: Instant, offset: Offset): Allocation
  {
    if to == [] then Allocated(t)
    else
      var before := AllocateAll(t, to[..|to| - 1], createTime, offset);
      if before.Refused? then before
      else AllocateOne(before.tables, to[|to| - 1], createTime, offset)
  }

  /** The head sequence of every recipient. */
  function HeadsOf(t: Tables, to: seq<Uid>): map<Uid, int>
  {
    map u | u in to :: Head(t, u)
  }

  predicate SameEvent(row: EventRow, e: Event)
  {
    Milliseconds(row.createTime) == Milliseconds(e.createTime) && row.payload == e.payload
  }

  /**
   The body of the transaction in `Save`, before commit. A stored offset is a duplicate key, unless the row can be
   read back and is that of the event.
   */
  function SaveBody(t: Tables, e: Event, readable: bool): (Tables, SaveResult)
  {
    if e.offset in t.events then
      (t, if readable && SameEvent(t.events[e.offset], e) then Saved(map[]) else Failed(DuplicateKey))
    else
      var t1 := t.(events := t.events[e.offset := EventRow(e.createTime, e.payload)]);
      match AllocateAll(t1, e.to, e.createTime, e.offset)
      case Allocated(t2) => (t2, Saved(HeadsOf(t2, e.to)))
      case Refused(error) => (t, Failed(error))
  }

  /** `Save` with the transaction around it. */
  function Save(t: Tables, e: Event, c: Commit): (Tables, SaveResult)
  {
    var (t', r) := SaveBody(t, e, c != Interrupted);
    if r.Failed? then (t, r)
    else match c
      case Committed => (t', r)
      case NotCommitted => (t, Failed(CommitFailed))
      case CommittedButFailed => (t', Failed(CommitFailed))
      case Interrupted => (t, Failed(CommitFailed))
  }

  /** `DELETE FROM events WHERE create_time <= cutoff`, which cascades to `user_events`. */
  function Clean(t: Tables, cutoff: Instant): Tables
  {
    var kept := map o | o in t.events && t.events[o].createTime > cutoff :: t.events[o];
    t.(events := kept,
       userEvents := map k | k in t.userEvents && t.userEvents[k].offset in kept :: t.userEvents[k])
  }

  /** Whether `SetRead` finds an unread row. */
  predicate Unread(t: Tables, k: Key)
  {
    k in t.userEvents && !t.userEvents[k].read
  }

  function SetRead(t: Tables, k: Key): Tables
  {
    if Unread(t, k) then t.(userEvents := t.userEvents[k := t.userEvents[k].(read := true)]) else t
  }

  /** What holds of the tables between transactions. */
  ghost predicate Valid(t: Tables)
  {
    && (forall u | u in t.userSeq :: 0 <= u && 1 <= t.userSeq[u] <= MAX_INT32)
    && (forall k | k in t.userEvents :: 1 <= k.seqNo <= Head(t, k.uid))
    && (forall k | k in t.userEvents ::
          && t.userEvents[k].offset in t.events
          && t.userEvents[k].createTime == t.events[t.userEvents[k].offset].createTime)
  }

  /** What allocating for recipients `to` does: seen from the outside, without the loop. */
  ghost predicate Extends(t: Tables, t': Tables, createTime: Instant, offset: Offset)
  {
    && t'.events == t.events
    && (forall u :: Head(t, u) <= Head(t', u))
    && (forall k :: k in t'.userEvents <==> k in t.userEvents || Head(t, k.uid) < k.seqNo <= Head(t', k.uid))
    && (forall k | k in t.userEvents :: t'.userEvents[k] == t.userEvents[k])
    && (forall k | k in t'.userEvents && k !in t.userEvents ::
          t'.userEvents[k] == UserEventRow(createTime, false, offset))
  }

  /** The number of times a user is listed. */
  function Occurrences(to: seq<Uid>, u: Uid): nat
  {
    if to == [] then 0 else Occurrences(to[..|to| - 1], u) + (if to[|to| - 1] == u then 1 else 0)
  }

  /** Allocating one number raises the user's head by one and adds just that row. */
  lemma OneAdds(t: Tables, u: Uid, createTime: Instant, offset: Offset)
    requires AllocateOne(t, u, createTime, offset).Allocated?
    ensures var t' := AllocateOne(t, u, createTime, offset).tables;
            && t'.events == t.events
            && (forall v :: Head(t', v) == Head(t, v) + if v == u then 1 else 0)
            && t'.userEvents == t.userEvents[Key(u, Head(t, u) + 1) := UserEventRow(createTime, false, offset)]
  {
  }

  lemma OneExtends(t: Tables, u: Uid, createTime: Instant, offset: Offset)
    requires Valid(t) && offset in t.events && t.events[offset].createTime == createTime
    ensures var a := AllocateOne(t, u, createTime, offset);
            if a.Refused? then a.error == OutOfRange
            else && Valid(a.tables) && Extends(t, a.tables, createTime, offset)
                 && (forall v :: Head(a.tables, v) == Head(t, v) + if v == u then 1 else 0)
  {
    var a := AllocateOne(t, u, createTime, offset);
    if a.Allocated? {
      OneAdds(t, u, createTime, offset);
      AddedRow(t, a.tables, Key(u, Head(t, u) + 1), createTime, offset);
    }
  }

  lemma AddedRow(t: Tables, t': Tables, k: Key, createTime: Instant, offset: Offset)
    requires Valid(t) && offset in t.events && t.events[offset].createTime == createTime
    requires k == Key(k.uid, Head(t, k.uid) + 1) && t'.events == t.events
    requires forall v :: Head(t', v) == Head(t, v) + if v == k.uid then 1 else 0
    requires t'.userEvents == t.userEvents[k := UserEventRow(createTime, false, offset)]
    ensures Extends(t, t', createTime, offset)
  {
  }

  lemma ExtendsTransitive(t0: Tables, t1: Tables, t2: Tables, createTime: Instant, offset: Offset)
    requires Extends(t0, t1, createTime, offset) && Extends(t1, t2, createTime, offset)
    ensures Extends(t0, t2, createTime, offset)
  {
    forall k
      ensures k in t2.userEvents <==> k in t0.userEvents || Head(t0, k.uid) < k.seqNo <= Head(t2, k.uid)
    {
      assert Head(t0, k.uid) <= Head(t1, k.uid) <= Head(t2, k.uid);
      assert k in t2.userEvents <==> k in t1.userEvents || Head(t1, k.uid) < k.seqNo <= Head(t2, k.uid);
    }
    forall u ensures Head(t0, u) <= Head(t2, u) {
      assert Head(t0, u) <= Head(t1, u) <= Head(t2, u);
    }
  }

  /**
   Allocation never meets a duplicate key on valid tables. It gives each user
   as many new sequence numbers as the user is listed, directly above the old head,
   and touches nothing else.
   */
  lemma {:induction false} AllocationExtends(t: Tables, to: seq<Uid>, createTime: Instant, offset: Offset)
    requires Valid(t) && offset in t.events && t.events[offset].createTime == createTime
    ensures var a := AllocateAll(t, to, createTime, offset);
            if a.Refused? then a.error == OutOfRange
            else && Valid(a.tables) && Extends(t, a.tables, createTime, offset)
                 && forall u :: Head(a.tables, u) == Head(t, u) + Occurrences(to, u)
  {
    if to != [] {
      var before := AllocateAll(t, to[..|to| - 1], createTime, offset);
      AllocationExtends(t, to[..|to| - 1], createTime, offset);
      if before.Allocated? {
        OneExtends(before.tables, to[|to| - 1], createTime, offset);
        var a := AllocateAll(t, to, createTime, offset);
        if a.Allocated? {
          ExtendsTransitive(t, before.tables, a.tables, createTime, offset);
        }
      }
    }
  }

  /** A recipient list is refused exactly when some user would run out of 32-bit numbers. */
  lemma {:induction false} RefusedWhenOutOfNumbers(t: Tables, to: seq<Uid>, createTime: Instant, offset: Offset)
    requires Valid(t) && offset in t.events && t.events[offset].createTime == createTime
    ensures AllocateAll(t, to, createTime, offset).Refused? <==>
            exists u :: u in to && (u < 0 || Head(t, u) + Occurrences(to, u) > MAX_INT32)
  {
    if to != [] {
      var n := |to| - 1;
      var last := to[n];
      RefusedWhenOutOfNumbers(t, to[..n], createTime, offset);
      AllocationExtends(t, to[..n], createTime, offset);
      assert forall u :: u in to <==> u in to[..n] || u == last by { assert to == to[..n] + [last]; }
      assert forall u :: Occurrences(to[..n], u) <= Occurrences(to, u);
      if AllocateAll(t, to, createTime, offset).Refused? && AllocateAll(t, to[..n], createTime, offset).Allocated? {
        assert last in to && (last < 0 || Head(t, last) + Occurrences(to, last) > MAX_INT32);
      }
    }
  }

  /** From `t` to `t'`, event `e` was stored and split over its recipients. */
  ghost predicate Inserted(t: Tables, t': Tables, e: Event)
  {
    && t'.events == t.events[e.offset := EventRow(e.createTime, e.payload)]
    && Extends(t.(events := t'.events), t', e.createTime, e.offset)
    && forall u :: Head(t', u) == Head(t, u) + Occurrences(e.to, u)
  }

  /**
   Saving an offset not yet stored inserts it, whole or not at all, whatever the commit
   reports. It never ends in a duplicate key, and the sequence numbers it reports are the new heads.
   */
  lemma SaveInserts(t: Tables, e: Event, c: Commit)
    requires Valid(t) && e.offset !in t.events
    ensures var (t', r) := Save(t, e, c);
            && Valid(t')
            && (t' == t || Inserted(t, t', e))
            && (r.Failed? ==> r.error != DuplicateKey)
            && (r.Saved? ==> Inserted(t, t', e) && r.seqMap == HeadsOf(t', e.to))
            && (r.Failed? && c != CommittedButFailed ==> t' == t)
  {
    var t1 := t.(events := t.events[e.offset := EventRow(e.createTime, e.payload)]);
    AllocationExtends(t1, e.to, e.createTime, e.offset);
  }

  /** Every recipient is a valid user with 32-bit numbers left. */
  ghost predicate Fits(t: Tables, to: seq<Uid>)
  {
    forall u | u in to :: 0 <= u && Head(t, u) + Occurrences(to, u) <= MAX_INT32
  }

  /**
   When saving an offset not yet stored succeeds: exactly if its recipients have numbers left and the commit goes
   through. It is stored exactly if they have and the database commits, also when the answer is lost.
   */
  lemma SaveSucceedsIff(t: Tables, e: Event, c: Commit)
    requires Valid(t) && e.offset !in t.events
    ensures Save(t, e, c).1.Saved? <==> c == Committed && Fits(t, e.to)
    ensures e.offset in Save(t, e, c).0.events <==> (c == Committed || c == CommittedButFailed) && Fits(t, e.to)
    ensures Save(t, e, c).1 == Failed(OutOfRange) <==> !Fits(t, e.to)
  {
    var t1 := t.(events := t.events[e.offset := EventRow(e.createTime, e.payload)]);
    assert Valid(t1) && forall u :: Head(t1, u) == Head(t, u);
    AllocationExtends(t1, e.to, e.createTime, e.offset);
    RefusedWhenOutOfNumbers(t1, e.to, e.createTime, e.offset);
  }

  /**
   Saving a stored offset again changes nothing and reports no new head. It is a duplicate key error exactly if the
   row could not be read back, or is not that of the event, to the millisecond.
   */
  lemma SaveAgain(t: Tables, e: Event, c: Commit)
    requires e.offset in t.events
    ensures Save(t, e, c).0 == t
    ensures var row := t.events[e.offset];
            Save(t, e, c).1 ==
            if c == Interrupted || Milliseconds(row.createTime) != Milliseconds(e.createTime) || row.payload != e.payload
            then Failed(DuplicateKey)
            else if c == Committed then Saved(map[]) else Failed(CommitFailed)
  {
  }

  lemma CleanKeepsValid(t: Tables, cutoff: Instant)
    requires Valid(t)
    ensures Valid(Clean(t, cutoff)) && Clean(t, cutoff).userSeq == t.userSeq
  {
  }

  lemma SetReadKeepsValid(t: Tables, k: Key)
    requires Valid(t)
    ensures Valid(SetRead(t, k))
  {
    var t' := SetRead(t, k);
    assert t'.userEvents.Keys == t.userEvents.Keys;
    assert forall j | j in t'.userEvents ::
        t'.userEvents[j].offset == t.userEvents[j].offset && t'.userEvents[j].createTime == t.userEvents[j].createTime;
  }

  lemma {:induction false} OccurrencesPositive(to: seq<Uid>, u: Uid)
    ensures Occurrences(to, u) > 0 <==> u in to
  {
    if to != [] {
      OccurrencesPositive(to[..|to| - 1], u);
      assert to == to[..|to| - 1] + [to[|to| - 1]];
    }
  }
}
