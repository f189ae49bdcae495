/** The standalone server's session table (`cluster/standalone.go`). */
module Standalone {
  import opened Iteration
  import opened Sessions
  import opened Selection

  /** The table on which an action selects. */
  function Updated(t: Table, act: Action): Table
  {
    match act
    case Receive(SessionOnline(sess), _) => t[sess.sid := sess]
    case Receive(SessionOffline(sid), _) => t - {sid}
    case Receive(SyncSessions(list), _) => AddAll(t, list)
    case Clean(now) => Unexpired(t, now)
  }

  /** What an action does to the table, and which sessions it kicks off. */
  ghost predicate Step(quota: nat, t: Table, act: Action, t': Table, kicked: set<Sid>)
  {
    Selects(Updated(t, act), act, quota, kicked) && t' == Mark(Updated(t, act), kicked, act.now)
  }

  /** A run from the empty table, with the sessions kicked off at each step. */
  ghost predicate IsRun(quota: nat, run: seq<Table>, acts: seq<Action>, kicked: seq<set<Sid>>)
  {
    && |run| == |acts| + 1 == |kicked| + 1 && run[0] == map[]
    && forall n :: 0 <= n < |acts| ==> Step(quota, run[n], acts[n], run[n + 1], kicked[n])
  }

  lemma {:induction false} AddAllKeyed(t: Table, list: seq<Session>)
    requires Keyed(t)
    ensures Keyed(AddAll(t, list))
  {
    if list != [] {
      AddAllKeyed(t, list[..|list| - 1]);
    }
  }

  class Standalone {
    const quota: nat
    var sessions: Table

    constructor (quota: nat)
      ensures this.quota == quota && sessions == map[]
    {
      this.quota := quota;
      sessions := map[];
    }

    method AddSession(sess: Session)
      modifies this
      ensures sessions == old(sessions)[sess.sid := sess]
    {
      sessions := sessions[sess.sid := sess];
    }

    method AddSessions(slice: seq<Session>)
      modifies this
      ensures sessions == AddAll(old(sessions), slice)
    {
      for i := 0 to |slice|
        invariant sessions == AddAll(old(sessions), slice[..i])
      {
        assert slice[..i + 1][..i] == slice[..i];
        sessions := sessions[slice[i].sid := slice[i]];
      }
      assert slice[..|slice|] == slice;
    }

    method DelSession(sid: Sid)
      modifies this
      ensures sessions == old(sessions) - {sid}
    {
      sessions := sessions - {sid};
    }

    /** The loop that collects one user's sessions. */
    method ListUser(uid: Uid) returns (slice: seq<Session>)
      requires Keyed(sessions)
      ensures Lists(slice, sessions, OfUser(sessions, uid))
    {
      slice := [];
      var left := sessions.Keys;
      while left != {}
        invariant left <= sessions.Keys
        invariant Lists(slice, sessions, set s | s in sessions && s !in left && sessions[s].uid == uid)
      {
        var sid := NextKey(left);
        var sess := sessions[sid];
        ghost var before := set s | s in sessions && s !in left && sessions[s].uid == uid;
        ghost var after := set s | s in sessions && s !in left - {sid} && sessions[s].uid == uid;
        if sess.uid == uid {
          ListsAppend(slice, sessions, before, sess);
          assert after == before + {sid};
          slice := slice + [sess];
        } else {
          assert after == before;
        }
        left := left - {sid};
      }
      assert OfUser(sessions, uid) == set s | s in sessions && s !in left && sessions[s].uid == uid;
    }

    /** The loop over all sessions. */
    method ListAll() returns (all: seq<Session>)
      requires Keyed(sessions)
      ensures Lists(all, sessions, sessions.Keys)
    {
      all := [];
      var left := sessions.Keys;
      while left != {}
        invariant left <= sessions.Keys
        invariant Lists(all, sessions, sessions.Keys - left)
      {
        var sid := NextKey(left);
        ListsAppend(all, sessions, sessions.Keys - left, sessions[sid]);
        assert sessions.Keys - left + {sid} == sessions.Keys - (left - {sid});
        all := all + [sessions[sid]];
        left := left - {sid};
      }
      assert sessions.Keys - left == sessions.Keys;
    }

    method GetUserSessionsToKickoff(uid: Uid) returns (chosen: seq<Session>)
      requires Keyed(sessions)
      ensures OverQuota(sessions, uid, quota, SidsOf(chosen)) && Lists(chosen, sessions, SidsOf(chosen))
    {
      var slice := ListUser(uid);
      chosen := PickOldest(slice, quota, sessions, uid);
    }

    /** Mark the sessions and send their ids in one message. */
    method Kickoff(list: seq<Session>, now: int) returns (sids: seq<Sid>)
      requires Lists(list, sessions, SidsOf(list))
      modifies this
      ensures sessions == Mark(old(sessions), SidsOf(list), now)
      ensures |sids| == |list| && forall i :: 0 <= i < |list| ==> sids[i] == list[i].sid
    {
      sids := [];
      for i := 0 to |list|
        invariant sessions == Mark(old(sessions), SidsOf(list[..i]), now)
        invariant |sids| == i && forall j :: 0 <= j < i ==> sids[j] == list[j].sid
      {
        var sess := list[i];
        assert list[..i + 1] == list[..i] + [sess];
        SidsSplit(list[..i], [sess]);
        SidsOfOne(sess);
        sessions := sessions[sess.sid := sess.(kickoffTime := now)];
        sids := sids + [sess.sid];
      }
      assert list[..|list|] == list;
    }

    /** Delete what was kicked off too long ago, then select over all users. */
    method CleanSession(now: int) returns (chosen: seq<Session>)
      requires Keyed(sessions)
      modifies this
      ensures sessions == Unexpired(old(sessions), now)
      ensures forall s :: s in sessions <==>
                s in old(sessions) && (old(sessions)[s].kickoffTime <= 0 || now <= old(sessions)[s].kickoffTime + 60)
      ensures OverQuotaAll(sessions, quota, SidsOf(chosen)) && Lists(chosen, sessions, SidsOf(chosen))
    {
      var toDelete: set<Sid> := {};
      var left := sessions.Keys;
      while left != {}
        invariant sessions == old(sessions) && left <= sessions.Keys
        invariant toDelete == set s | s in sessions && s !in left && Expired(sessions[s], now)
      {
        var sid := NextKey(left);
        if Expired(sessions[sid], now) {
          toDelete := toDelete + {sid};
        }
        left := left - {sid};
      }
      left := toDelete;
      while left != {}
        invariant left <= toDelete
        invariant sessions == old(sessions) - (toDelete - left)
      {
        var sid := NextKey(left);
        sessions := sessions - {sid};
        left := left - {sid};
      }
      assert sessions == Unexpired(old(sessions), now);
      var all := ListAll();
      chosen := PickOldestOfAll(all, quota, sessions);
    }

    /** The dispatch of one message; no message is sent when nobody is kicked off. */
    method Receive(msg: FollowerMsg, now: int) returns (kickoff: seq<Sid>)
      requires Keyed(sessions)
      modifies this
      ensures Keyed(sessions)
      ensures Step(quota, old(sessions), Action.Receive(msg, now), sessions, set i | 0 <= i < |kickoff| :: kickoff[i])
    {
      kickoff := [];
      match msg
      case SessionOnline(sess) =>
        AddSession(sess);
        var chosen := GetUserSessionsToKickoff(sess.uid);
        if |chosen| > 0 {
          kickoff := Kickoff(chosen, now);
          assert SidsOf(chosen) == set i | 0 <= i < |kickoff| :: kickoff[i];
        } else {
          assert SidsOf(chosen) == {};
          MarkNobody(sessions, now);
        }
      case SessionOffline(sid) =>
        DelSession(sid);
        MarkNobody(sessions, now);
      case SyncSessions(list) =>
        AddAllKeyed(sessions, list);
        AddSessions(list);
        MarkNobody(sessions, now);
    }

    /** The periodic cleaning. */
    method Tick(now: int) returns (kickoff: seq<Sid>)
      requires Keyed(sessions)
      modifies this
      ensures Keyed(sessions)
      ensures Step(quota, old(sessions), Clean(now), sessions, set i | 0 <= i < |kickoff| :: kickoff[i])
    {
      kickoff := [];
      var chosen := CleanSession(now);
      if |chosen| > 0 {
        kickoff := Kickoff(chosen, now);
        assert SidsOf(chosen) == set i | 0 <= i < |kickoff| :: kickoff[i];
      } else {
        assert SidsOf(chosen) == {};
        MarkNobody(sessions, now);
      }
    }
  }
}
