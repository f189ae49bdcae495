/** A hub (`ws/hub.go`, `ws/hstore.go`): the sessions it serves and what it tells the leader about them. */
module Hubs {
  import opened Iteration
  import opened Selection
  import opened Sessions

  /** Sessions per sync message. */
  const BATCH := 1000

  /** The sync messages for a list, from position `from` on. */
  function Batches(list: seq<Session>, from: nat): seq<FollowerMsg>
    requires from <= |list|
    decreases |list| - from
  {
    if from == |list| then []
    else if from + BATCH >= |list| then [SyncSessions(list[from..])]
    else [SyncSessions(list[from..from + BATCH])] + Batches(list, from + BATCH)
  }

  /** The sessions that get a head pushed, each the head of its user. */
  function HeadsFor(handlers: Table, heads: map<Uid, int>): map<Sid, int>
  {
    map s | s in handlers && handlers[s].uid in heads :: heads[handlers[s].uid]
  }

  class Hub {
    var handlers: Table
    var followerC: seq<FollowerMsg>
    var online: bool

    constructor ()
      ensures handlers == map[] && followerC == [] && !online
    {
      handlers, followerC, online := map[], [], false;
    }

    /** `HandlerStore.del`: whether the session was there. */
    method Del(sid: Sid) returns (found: bool)
      modifies `handlers
      ensures found <==> sid in old(handlers)
      ensures handlers == old(handlers) - {sid}
    {
      if sid in handlers {
        handlers := handlers - {sid};
        return true;
      }
      return false;
    }

    method AddHandler(sess: Session)
      modifies `handlers, `followerC
      ensures handlers == old(handlers)[sess.sid := sess]
      ensures followerC == old(followerC) + [SessionOnline(sess)]
    {
      handlers := handlers[sess.sid := sess];
      followerC := followerC + [SessionOnline(sess)];
    }

    /** Only the call that finds the session reports it offline. */
    method DelHandler(sid: Sid)
      modifies `handlers, `followerC
      ensures handlers == old(handlers) - {sid}
      ensures followerC == if sid in old(handlers) then old(followerC) + [SessionOffline(sid)] else old(followerC)
    {
      var found := Del(sid);
      if found {
        followerC := followerC + [SessionOffline(sid)];
      }
    }

    method GetByUid(uid: Uid) returns (out: seq<Session>)
      requires Keyed(handlers)
      ensures Lists(out, handlers, OfUser(handlers, uid))
    {
      out := [];
      var left := handlers.Keys;
      while left != {}
        invariant left <= handlers.Keys
        invariant Lists(out, handlers, OfUser(handlers, uid) - left)
      {
        var sid := NextKey(left);
        if handlers[sid].uid == uid {
          ListsAppend(out, handlers, OfUser(handlers, uid) - left, handlers[sid]);
          out := out + [handlers[sid]];
          assert OfUser(handlers, uid) - left + {sid} == OfUser(handlers, uid) - (left - {sid});
        } else {
          assert OfUser(handlers, uid) - left == OfUser(handlers, uid) - (left - {sid});
        }
        left := left - {sid};
      }
    }

    method ShallowCopySessions() returns (out: seq<Session>)
      requires Keyed(handlers)
      ensures Lists(out, handlers, handlers.Keys)
    {
      out := [];
      var left := handlers.Keys;
      while left != {}
        invariant left <= handlers.Keys
        invariant Lists(out, handlers, handlers.Keys - left)
      {
        var sid := NextKey(left);
        ListsAppend(out, handlers, handlers.Keys - left, handlers[sid]);
        out := out + [handlers[sid]];
        assert handlers.Keys - left + {sid} == handlers.Keys - (left - {sid});
        left := left - {sid};
      }
    }

    /** Connected to the leader: report all sessions, in batches. */
    method Online() returns (ghost sessions: seq<Session>)
      requires Keyed(handlers)
      modifies `online, `followerC
      ensures online && Lists(sessions, handlers, handlers.Keys)
      ensures followerC == old(followerC) + Batches(sessions, 0)
    {
      online := true;
      var list := ShallowCopySessions();
      sessions := list;
      if |list| == 0 {
        return;
      }
      var size, i := |list|, 0;
      while i < size
        invariant 0 <= i && online
        invariant followerC + (if i < size then Batches(list, i) else []) == old(followerC) + Batches(list, 0)
      {
        var j := i + BATCH;
        if j > size {
          j := size;
        }
        BatchSent(followerC, list, i, j);
        followerC := followerC + [SyncSessions(list[i..j])];
        i := i + BATCH;
      }
    }

    /** A kickoff message: the sessions still here are told and forgotten; the leader gets no offline for them. */
    method Kickoff(sids: seq<Sid>) returns (told: seq<Sid>)
      modifies `handlers
      ensures handlers == old(handlers) - ToSet(sids)
      ensures forall s :: s in told <==> s in old(handlers) && s in sids
    {
      told := [];
      ghost var all := handlers;
      assert ToSet(sids[..0]) == {};
      for k := 0 to |sids|
        invariant handlers == all - ToSet(sids[..k])
        invariant forall s :: s in told <==> s in all && s in sids[..k]
      {
        assert sids[..k + 1] == sids[..k] + [sids[k]];
        ToSetMore(sids[..k], sids[k]);
        if sids[k] in handlers {
          told := told + [sids[k]];
          var _ := Del(sids[k]);
        }
      }
      assert sids[..|sids|] == sids;
    }

    /** The sessions of one user are told its head. */
    method PushHead(uid: Uid, head: int, before: map<Sid, int>) returns (told: map<Sid, int>)
      requires Keyed(handlers)
      ensures told == Told(before, OfUser(handlers, uid), head)
    {
      told := before;
      var slice := GetByUid(uid);
      assert SidsOf(slice[..0]) == {};
      for k := 0 to |slice|
        invariant told == Told(before, SidsOf(slice[..k]), head)
      {
        assert slice[..k + 1] == slice[..k] + [slice[k]];
        SidsSplit(slice[..k], [slice[k]]);
        SidsOfOne(slice[k]);
        told := told[slice[k].sid := head];
      }
      assert slice[..|slice|] == slice;
    }

    /** New heads: every session of a named user is told its user's head. */
    method PushHeads(heads: map<Uid, int>) returns (told: map<Sid, int>)
      requires Keyed(handlers)
      ensures told == HeadsFor(handlers, heads)
    {
      told := map[];
      var left := heads.Keys;
      while left != {}
        invariant left <= heads.Keys
        invariant told == HeadsFor(handlers, heads - left)
      {
        var uid := NextKey(left);
        HeadsMore(handlers, heads, left, uid);
        told := PushHead(uid, heads[uid], told);
        left := left - {uid};
      }
      assert heads - left == heads;
    }
  }

  /** What was told, once the sessions `sids` were told `head`. */
  function Told(before: map<Sid, int>, sids: set<Sid>, head: int): map<Sid, int>
  {
    map s | s in before.Keys + sids :: if s in sids then head else before[s]
  }

  lemma HeadsMore(handlers: Table, heads: map<Uid, int>, left: set<Uid>, uid: Uid)
    requires uid in left && left <= heads.Keys
    ensures Told(HeadsFor(handlers, heads - left), OfUser(handlers, uid), heads[uid]) == HeadsFor(handlers, heads - (left - {uid}))
  {
  }

  lemma ToSetMore(sids: seq<Sid>, sid: Sid)
    ensures ToSet(sids + [sid]) == ToSet(sids) + {sid}
  {
  }

  /** Sending the next batch leaves the rest to be sent. */
  lemma BatchSent(before: seq<FollowerMsg>, list: seq<Session>, i: nat, j: nat)
    requires i < |list| && j == if i + BATCH > |list| then |list| else i + BATCH
    ensures before + Batches(list, i) ==
            before + [SyncSessions(list[i..j])] + if i + BATCH < |list| then Batches(list, i + BATCH) else []
  {
    assert list[i..|list|] == list[i..];
  }
}
