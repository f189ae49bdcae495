/**
 How the client catches up: a new head seq is turned into range requests. Heads are coalesced
 by the server, and requests are answered in any order.
 */
module CatchUp {
  import opened EventTables
  import FlowControl

  datatype Range = Range(from: int, to: int)

  predicate Within(n: int, r: Range)
  {
    r.from <= n <= r.to
  }

  /** Some request asks for number `n`. */
  ghost predicate Asked(sent: seq<Range>, n: int)
  {
    exists i :: 0 <= i < |sent| && Within(n, sent[i])
  }

  /** The ranges are the numbers above `low` up to `head`: newest first, each at most `limit` long, none twice. */
  ghost predicate Tiles(ranges: seq<Range>, low: int, head: int, limit: int)
  {
    && (forall i :: 0 <= i < |ranges| ==> ranges[i].from <= ranges[i].to < ranges[i].from + limit)
    && (forall i, j :: 0 <= i < j < |ranges| ==> ranges[j].to < ranges[i].from)
    && (forall n :: Asked(ranges, n) <==> low < n <= head)
  }

  /** The newest fetched number; the list is newest first. */
  function Newest(sorted: seq<int>): int
  {
    if sorted == [] then 0 else sorted[0]
  }

  /** The request loop, with no more requests than the limit makes necessary. */
  method RequestGetEvents(sortedEventList: seq<int>, head: int, limit: int) returns (sent: seq<Range>)
    requires limit >= 1 && Newest(sortedEventList) >= 0
    ensures Tiles(sent, Newest(sortedEventList), head, limit)
    ensures head > Newest(sortedEventList) ==> (|sent| - 1) * limit < head - Newest(sortedEventList) <= |sent| * limit
    ensures head <= Newest(sortedEventList) ==> sent == []
    ensures forall c: Client | c.limit == limit && IsNewest(c.events, Newest(sortedEventList)) ::
              Requests(c, head, c.(sent := c.sent + sent))
  {
    sent := [];
    var minSeq := Newest(sortedEventList);
    if head <= minSeq {
      return;
    }
    var upper := head;
    ghost var low := head;
    while upper >= 1
      invariant low == if minSeq < upper then upper else minSeq
      invariant Tiles(sent, low, head, limit) && low <= head
      invariant minSeq < upper + limit && (upper <= minSeq ==> sent != [])
      invariant Stepped(sent, limit) == head - upper
    {
      var lower := upper - limit + 1;
      if lower <= minSeq {
        lower := minSeq + 1;
      }
      if lower > upper {
        break;
      }
      TilesAppend(sent, upper, head, limit, lower);
      OneMore(|sent|, limit);
      sent := sent + [Range(lower, upper)];
      upper, low := upper - limit, lower - 1;
    }
    OneMore(|sent| - 1, limit);
  }

  /** How far the loop has stepped down. */
  ghost function Stepped(sent: seq<Range>, limit: int): int
  {
    |sent| * limit
  }

  lemma OneMore(k: int, limit: int)
    ensures (k + 1) * limit == k * limit + limit
  {
  }

  lemma TilesAppend(ranges: seq<Range>, upper: int, head: int, limit: int, lower: int)
    requires Tiles(ranges, upper, head, limit) && lower <= upper < lower + limit && upper <= head
    ensures Tiles(ranges + [Range(lower, upper)], lower - 1, head, limit)
  {
    var more := ranges + [Range(lower, upper)];
    forall i | 0 <= i < |ranges| ensures upper < ranges[i].from {
      assert Within(ranges[i].from, ranges[i]);
      assert Asked(ranges, ranges[i].from);
    }
    forall n ensures Asked(more, n) <==> lower - 1 < n <= head {
      AskedAppend(ranges, [Range(lower, upper)], n);
      assert Asked([Range(lower, upper)], n) <==> Within(n, [Range(lower, upper)][0]);
    }
  }

  lemma AskedAppend(a: seq<Range>, b: seq<Range>, n: int)
    ensures Asked(a + b, n) <==> Asked(a, n) || Asked(b, n)
  {
    if i :| 0 <= i < |a| && Within(n, a[i]) {
      assert Within(n, (a + b)[i]);
    }
    if i :| 0 <= i < |b| && Within(n, b[i]) {
      assert Within(n, (a + b)[|a| + i]);
    }
  }

  // ----- runs of one connection -----

  /** What the client handles: the configuration with the head, a pushed head, the rows for request `i`. */
  datatype Action = Stats(limit: nat, head: int) | Push(head: int) | Answer(i: nat, rows: set<int>)

  /** A limit of 0 stands for a configuration that has not arrived. */
  datatype Client = Client(limit: nat, events: set<int>, sent: seq<Range>, answered: set<nat>)

  const FRESH := Client(0, {}, [], {})

  predicate IsNewest(events: set<int>, m: int)
  {
    (forall e | e in events :: e <= m) && if events == {} then m == 0 else m in events
  }

  /** The requests appended for a head; without a configuration there are none. */
  ghost predicate Requests(c: Client, head: int, c': Client)
  {
    if c.limit == 0 then c' == c
    else exists m, ranges ::
           && IsNewest(c.events, m) && Tiles(ranges, m, head, c.limit)
           && c' == c.(sent := c.sent + ranges)
  }

  /** An answer holds rows of its range, among them all those in `kept`, which nobody cleans away. */
  ghost predicate Step(kept: set<int>, c: Client, act: Action, c': Client)
  {
    match act
    case Stats(limit, head) => limit >= 1 && Requests(c.(limit := limit), head, c')
    case Push(head) => Requests(c, head, c')
    case Answer(i, rows) =>
      && i < |c.sent| && i !in c.answered
      && (forall n | n in rows :: Within(n, c.sent[i]))
      && (forall n | n in kept && Within(n, c.sent[i]) :: n in rows)
      && c' == c.(events := c.events + rows, answered := c.answered + {i})
  }

  ghost predicate IsRun(kept: set<int>, run: seq<Client>, acts: seq<Action>)
  {
    && |run| == |acts| + 1 && run[0] == FRESH
    && forall n :: 0 <= n < |acts| ==> Step(kept, run[n], acts[n], run[n + 1])
  }

  /** The heads handled since the configuration arrived. */
  function Heard(acts: seq<Action>): seq<int>
  {
    if acts == [] then []
    else
      var before := Heard(acts[..|acts| - 1]);
      match acts[|acts| - 1]
      case Stats(_, head) => before + [head]
      case Push(head) => if before == [] then [] else before + [head]
      case Answer(_, _) => before
  }

  function Largest(heads: seq<int>): nat
  {
    if heads == [] then 0
    else
      var before := Largest(heads[..|heads| - 1]);
      var last := heads[|heads| - 1];
      if last > before then last else before
  }

  /** Asked for is everything up to `top`, and what was answered has arrived. */
  ghost predicate Inv(kept: set<int>, c: Client, top: nat)
  {
    && (forall n :: Asked(c.sent, n) <==> 1 <= n <= top)
    && (forall e | e in c.events :: 1 <= e <= top)
    && (forall i, n | i in c.answered && 0 <= i < |c.sent| && n in kept && Within(n, c.sent[i]) :: n in c.events)
    && (forall i | i in c.answered :: i < |c.sent|)
  }

  lemma RequestsKeepInv(kept: set<int>, c: Client, head: int, c': Client, top: nat)
    requires Inv(kept, c, top) && Requests(c, head, c') && c.limit != 0
    ensures Inv(kept, c', if head > top then head else top)
  {
    var m, ranges :| IsNewest(c.events, m) && Tiles(ranges, m, head, c.limit) && c' == c.(sent := c.sent + ranges);
    forall n ensures Asked(c'.sent, n) <==> 1 <= n <= if head > top then head else top {
      AskedAppend(c.sent, ranges, n);
    }
  }

  lemma AnswerKeepsInv(kept: set<int>, c: Client, i: nat, rows: set<int>, c': Client, top: nat)
    requires Inv(kept, c, top) && Step(kept, c, Answer(i, rows), c')
    ensures Inv(kept, c', top)
  {
    forall e | e in rows ensures 1 <= e <= top {
      assert Within(e, c.sent[i]);
      assert Asked(c.sent, e);
    }
  }

  lemma {:induction false} RunKeepsInv(kept: set<int>, run: seq<Client>, acts: seq<Action>, n: nat)
    requires IsRun(kept, run, acts) && n <= |acts|
    ensures Inv(kept, run[n], Largest(Heard(acts[..n])))
    ensures run[n].limit == 0 <==> Heard(acts[..n]) == []
  {
    if n > 0 {
      RunKeepsInv(kept, run, acts, n - 1);
      var c, act, c' := run[n - 1], acts[n - 1], run[n];
      assert Step(kept, c, act, c');
      assert acts[..n][..n - 1] == acts[..n - 1];
      var before, top := Heard(acts[..n - 1]), Largest(Heard(acts[..n - 1]));
      match act
      case Stats(limit, head) =>
        RequestsKeepInv(kept, c.(limit := limit), head, c', top);
        assert (before + [head])[..|before|] == before;
      case Push(head) =>
        if c.limit != 0 {
          RequestsKeepInv(kept, c, head, c', top);
          assert (before + [head])[..|before|] == before;
        }
      case Answer(i, rows) =>
        AnswerKeepsInv(kept, c, i, rows, c', top);
    }
  }

  /**
   In every run of a connection, whatever order pushes and answers come in: the requests ask for
   exactly 1 up to the largest head heard, and once all are answered every row still kept has arrived.
   */
  lemma NothingIsMissed(kept: set<int>, run: seq<Client>, acts: seq<Action>)
    requires IsRun(kept, run, acts)
    ensures forall n :: Asked(run[|acts|].sent, n) <==> 1 <= n <= Largest(Heard(acts))
    ensures forall e | e in run[|acts|].events :: 1 <= e <= Largest(Heard(acts))
    ensures (forall i: nat | i < |run[|acts|].sent| :: i in run[|acts|].answered) ==>
              forall n | n in kept && 1 <= n <= Largest(Heard(acts)) :: n in run[|acts|].events
  {
    RunKeepsInv(kept, run, acts, |acts|);
    assert acts[..|acts|] == acts;
    var c := run[|acts|];
    if forall i: nat | i < |c.sent| :: i in c.answered {
      forall n | n in kept && 1 <= n <= Largest(Heard(acts)) ensures n in c.events {
        assert Asked(c.sent, n);
        var i :| 0 <= i < |c.sent| && Within(n, c.sent[i]);
        assert i in c.answered;
      }
    }
  }

  /** The client asks only for numbers above all it has, in requests no longer than the limit. */
  lemma AsksOnlyForNewer(kept: set<int>, run: seq<Client>, acts: seq<Action>, n: nat, i: nat)
    requires IsRun(kept, run, acts) && n < |acts| && |run[n].sent| <= i < |run[n + 1].sent|
    ensures run[n + 1].sent[i].to < run[n + 1].sent[i].from + run[n + 1].limit
    ensures forall e | e in run[n].events :: e < run[n + 1].sent[i].from
  {
    var c, act, c' := run[n], acts[n], run[n + 1];
    assert Step(kept, c, act, c');
    if !act.Answer? {
      var asking := if act.Stats? then c.(limit := act.limit) else c;
      var m, ranges: seq<Range> :| IsNewest(asking.events, m) && Tiles(ranges, m, act.head, asking.limit) &&
                       c' == asking.(sent := asking.sent + ranges);
      var r := ranges[i - |c.sent|];
      assert Within(r.from, r);
      assert Asked(ranges, r.from);
    }
  }

  // ----- coalesced pushes -----

  /** The heads pushed for a user. */
  function HeadsOf(pushes: seq<FlowControl.PushRecord>, u: Uid): seq<int>
  {
    if pushes == [] then []
    else
      var entries := pushes[|pushes| - 1].entries;
      HeadsOf(pushes[..|pushes| - 1], u) + if u in entries then [entries[u].headSeq] else []
  }

  lemma {:induction false} LargestHeard(pushes: seq<FlowControl.PushRecord>, u: Uid, first: nat)
    ensures Largest([first] + HeadsOf(pushes, u)) ==
            var pushed := FlowControl.LargestPush(pushes, u); if pushed > first then pushed else first
  {
    if pushes == [] {
      assert [first] + HeadsOf(pushes, u) == [first];
    } else {
      var rest, entries := pushes[..|pushes| - 1], pushes[|pushes| - 1].entries;
      LargestHeard(rest, u, first);
      var before := [first] + HeadsOf(rest, u);
      if u in entries {
        assert [first] + HeadsOf(pushes, u) == before + [entries[u].headSeq];
        assert (before + [entries[u].headSeq])[..|before|] == before;
      } else {
        assert HeadsOf(pushes, u) == HeadsOf(rest, u);
      }
    }
  }

  lemma {:induction false} LargestPushSplits(pushes: seq<FlowControl.PushRecord>, k: nat, u: Uid)
    requires k <= |pushes|
    ensures FlowControl.LargestPush(pushes, u) ==
            var before, after := FlowControl.LargestPush(pushes[..k], u), FlowControl.LargestPush(pushes[k..], u);
            if after > before then after else before
    ensures FlowControl.LargestPush(pushes[..k], u) >= 0
    decreases |pushes|
  {
    var n := |pushes| - 1;
    if pushes == [] {
    } else if k == |pushes| {
      assert pushes[..k] == pushes && pushes[k..] == [];
      LargestPushSplits(pushes[..n], n, u);
      assert pushes[..n][..n] == pushes[..n] && pushes[..n][n..] == [];
    } else {
      LargestPushSplits(pushes[..n], k, u);
      assert pushes[..n][..k] == pushes[..k] && pushes[..n][k..] == pushes[k..][..n - k];
    }
  }

  /**
   A client that connects after the first `k` pushes, hears a head `first` at least as large as those,
   and then the later pushes of the flow controller, however they were coalesced, asks for every number
   put for its user once nothing waits in the cache.
   */
  lemma CoalescingLosesNothing(f: FlowControl.Flow, now: Instant, u: Uid, k: nat, first: nat, kept: set<int>,
                               run: seq<Client>, acts: seq<Action>, n: int)
    requires FlowControl.Steady(f, now) && u !in f.cache
    requires k <= |f.pushes| && first >= FlowControl.LargestPush(f.pushes[..k], u)
    requires IsRun(kept, run, acts) && Heard(acts) == [first] + HeadsOf(f.pushes[k..], u)
    requires 1 <= n <= FlowControl.LargestPut(f.puts, u)
    ensures Asked(run[|acts|].sent, n)
  {
    assert FlowControl.Conserves(f, u);
    LargestHeard(f.pushes[k..], u, first);
    LargestPushSplits(f.pushes, k, u);
    NothingIsMissed(kept, run, acts);
  }
}
