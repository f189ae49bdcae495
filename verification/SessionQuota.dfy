/** The session quota over whole runs of the standalone server (`cluster/standalone.go`). */
module SessionQuota {
  import opened Sessions
  import opened Standalone

  function Unkicked(t: Table, u: Uid): set<Sid>
  {
    set s | s in OfUser(t, u) && !Kicked(t[s])
  }

  /** Every kicked session of the user is older than every unkicked one. */
  ghost predicate KickedOlder(t: Table, u: Uid)
  {
    forall a, b | a in OfUser(t, u) && b in OfUser(t, u) && Kicked(t[a]) && !Kicked(t[b]) ::
      t[a].createTime < t[b].createTime
  }

  ghost predicate KickedAreOlder(t: Table)
  {
    forall u :: KickedOlder(t, u)
  }

  /** A session arrives later than all the user's sessions at hand, and not yet kicked. */
  ghost predicate ArrivesLast(t: Table, sess: Session)
  {
    && !Kicked(sess) && sess.sid !in t
    && forall s | s in OfUser(t, sess.uid) :: t[s].createTime < sess.createTime
  }

  ghost predicate Inv(t: Table)
  {
    Keyed(t) && DistinctTimes(t) && KickedAreOlder(t)
  }

  function Min(a: nat, b: nat): nat
  {
    if a < b then a else b
  }

  /** `stay` are `n` of the unkicked sessions of `u`, each newer than every other unkicked one. */
  ghost predicate Newest(t: Table, u: Uid, n: nat, stay: set<Sid>)
  {
    && stay <= Unkicked(t, u) && |stay| == n
    && forall a, b | a in stay && b in Unkicked(t, u) && b !in stay :: t[b].createTime < t[a].createTime
  }

  /** A kicked session is only spared when no unkicked one is chosen. */
  lemma ChosenKickedFirst(t: Table, u: Uid, quota: nat, chosen: set<Sid>)
    requires KickedOlder(t, u) && OverQuota(t, u, quota, chosen)
    ensures (OfUser(t, u) - Unkicked(t, u)) <= chosen || chosen <= OfUser(t, u) - Unkicked(t, u)
  {
    var kicked := OfUser(t, u) - Unkicked(t, u);
    if a :| a in kicked && a !in chosen {
      forall b | b in chosen ensures b in kicked {
        assert t[b].createTime <= t[a].createTime;
      }
    }
  }

  /**
   One selection leaves exactly min(unkicked, quota) of the user's sessions unkicked, and they are
   the newest. Lingering kicked sessions do not cost an unkicked one its place.
   */
  lemma SelectionKeepsNewest(t: Table, u: Uid, quota: nat, chosen: set<Sid>)
    requires Inv(t) && OverQuota(t, u, quota, chosen)
    ensures Newest(t, u, Min(|Unkicked(t, u)|, quota), Unkicked(t, u) - chosen)
  {
    ChosenKickedFirst(t, u, quota, chosen);
    StayCount(OfUser(t, u), Unkicked(t, u), chosen, quota);
    forall a, b | a in Unkicked(t, u) - chosen && b in Unkicked(t, u) && b in chosen ensures t[b].createTime < t[a].createTime {
      assert a != b && a in OfUser(t, u) && b in OfUser(t, u);
    }
  }

  /** How many of `free` stay when as many of `mine` as exceed the quota are chosen, the others of `mine` first. */
  lemma StayCount(mine: set<Sid>, free: set<Sid>, chosen: set<Sid>, quota: nat)
    requires free <= mine && chosen <= mine && |chosen| == (if |mine| > quota then |mine| - quota else 0)
    requires mine - free <= chosen || chosen <= mine - free
    ensures |free - chosen| == Min(|free|, quota)
  {
    var rest := mine - free;
    assert |rest| == |mine| - |free|;
    if rest <= chosen {
      assert free - chosen == mine - chosen;
      assert |mine - chosen| == |mine| - |chosen|;
      NotLarger(rest, chosen);
    } else {
      assert free - chosen == free;
      NotLarger(chosen, rest);
    }
  }

  lemma NotLarger(a: set<Sid>, b: set<Sid>)
    requires a <= b
    ensures |a| <= |b|
  {
    assert |b - a| == |b| - |a|;
  }

  lemma MarkedUser(t: Table, sids: set<Sid>, now: int, u: Uid)
    requires now > 0
    ensures OfUser(Mark(t, sids, now), u) == OfUser(t, u)
    ensures Unkicked(Mark(t, sids, now), u) == Unkicked(t, u) - sids
  {
  }

  /** Marking what a selection chose keeps the order. */
  lemma MarkKeepsInv(t: Table, quota: nat, sids: set<Sid>, now: int)
    requires Inv(t) && now > 0 && sids <= t.Keys
    requires forall u :: sids * OfUser(t, u) == {} || OverQuota(t, u, quota, sids * OfUser(t, u))
    ensures Inv(Mark(t, sids, now))
  {
    var t' := Mark(t, sids, now);
    forall u, a, b | a in OfUser(t', u) && b in OfUser(t', u) && Kicked(t'[a]) && !Kicked(t'[b])
      ensures t'[a].createTime < t'[b].createTime
    {
      assert KickedOlder(t, u);
      assert a in OfUser(t, u) && b in OfUser(t, u) && b !in sids;
      if a in sids {
        assert a in sids * OfUser(t, u);
        assert OverQuota(t, u, quota, sids * OfUser(t, u));
      }
    }
  }

  lemma OnlineKeepsInv(quota: nat, t: Table, sess: Session, now: int, t': Table, kicked: set<Sid>)
    requires Inv(t) && ArrivesLast(t, sess) && now > 0
    requires Step(quota, t, Receive(SessionOnline(sess), now), t', kicked)
    ensures Inv(t')
  {
    var t1 := t[sess.sid := sess];
    AddedKeepsInv(t, sess);
    forall u ensures kicked * OfUser(t1, u) == {} || OverQuota(t1, u, quota, kicked * OfUser(t1, u)) {
      if u == sess.uid {
        assert kicked * OfUser(t1, u) == kicked;
      } else {
        assert kicked * OfUser(t1, u) == {};
      }
    }
    MarkKeepsInv(t1, quota, kicked, now);
  }

  lemma CleanKeepsInv(quota: nat, t: Table, now: int, t': Table, kicked: set<Sid>)
    requires Inv(t) && now > 0 && Step(quota, t, Clean(now), t', kicked)
    ensures Inv(t')
  {
    UnexpiredKeepsInv(t, now);
    MarkKeepsInv(Unexpired(t, now), quota, kicked, now);
  }

  /** An online pass leaves the newest min(unkicked, quota) sessions of the user unkicked, and no other user's changed. */
  lemma OnlinePass(quota: nat, t: Table, sess: Session, now: int, t': Table, kicked: set<Sid>, u: Uid)
    requires Inv(t) && ArrivesLast(t, sess) && now > 0
    requires Step(quota, t, Receive(SessionOnline(sess), now), t', kicked)
    ensures var t1 := t[sess.sid := sess];
            if u == sess.uid then Newest(t1, u, Min(|Unkicked(t1, u)|, quota), Unkicked(t', u))
            else Unkicked(t', u) == Unkicked(t, u)
  {
    var t1 := t[sess.sid := sess];
    OnlineKeepsInv(quota, t, sess, now, t', kicked);
    MarkedUser(t1, kicked, now, u);
    if u == sess.uid {
      assert Inv(t1) by {
        AddedKeepsInv(t, sess);
      }
      SelectionKeepsNewest(t1, u, quota, kicked);
    } else {
      assert OfUser(t1, u) == OfUser(t, u);
      assert Unkicked(t1, u) - kicked == Unkicked(t, u);
    }
  }

  lemma AddedKeepsInv(t: Table, sess: Session)
    requires Inv(t) && ArrivesLast(t, sess)
    ensures Inv(t[sess.sid := sess])
  {
    var t1 := t[sess.sid := sess];
    forall a, b | a in t1 && b in t1 && a != b && t1[a].uid == t1[b].uid ensures t1[a].createTime != t1[b].createTime {
      assert a != sess.sid ==> a in OfUser(t, t[a].uid);
      assert b != sess.sid ==> b in OfUser(t, t[b].uid);
    }
    forall u, a, b | a in OfUser(t1, u) && b in OfUser(t1, u) && Kicked(t1[a]) && !Kicked(t1[b])
      ensures t1[a].createTime < t1[b].createTime
    {
      assert KickedOlder(t, u);
      assert a in OfUser(t, u);
      assert b != sess.sid ==> b in OfUser(t, u);
    }
  }

  lemma CleanedUser(t: Table, now: int, u: Uid)
    ensures Unkicked(Unexpired(t, now), u) == Unkicked(t, u)
  {
  }

  lemma SelectionOfAll(t: Table, quota: nat, kicked: set<Sid>, u: Uid)
    requires Inv(t) && OverQuotaAll(t, quota, kicked)
    ensures Newest(t, u, Min(|Unkicked(t, u)|, quota), Unkicked(t, u) - kicked)
  {
    var chosen := kicked * OfUser(t, u);
    assert Unkicked(t, u) - chosen == Unkicked(t, u) - kicked;
    SelectionKeepsNewest(t, u, quota, chosen);
  }

  lemma UnexpiredKeepsInv(t: Table, now: int)
    requires Inv(t)
    ensures Inv(Unexpired(t, now))
  {
    var t1 := Unexpired(t, now);
    forall u ensures KickedOlder(t1, u) {
      assert KickedOlder(t, u) && OfUser(t1, u) <= OfUser(t, u);
    }
  }

  /** A clean pass leaves the newest min(unkicked, quota) sessions of every user unkicked. */
  lemma CleanPass(quota: nat, t: Table, now: int, t': Table, kicked: set<Sid>, u: Uid)
    requires Inv(t) && now > 0 && Step(quota, t, Clean(now), t', kicked)
    ensures Newest(Unexpired(t, now), u, Min(|Unkicked(t, u)|, quota), Unkicked(t', u))
  {
    UnexpiredKeepsInv(t, now);
    CleanedUser(t, now, u);
    MarkedUser(Unexpired(t, now), kicked, now, u);
    SelectionOfAll(Unexpired(t, now), quota, kicked, u);
  }

  // ----- exactly when the quota is exact -----

  /** Every selection leaves min(unkicked, quota) sessions. */
  ghost predicate Exact(t: Table, u: Uid, quota: nat)
  {
    forall chosen | OverQuota(t, u, quota, chosen) :: |Unkicked(t, u) - chosen| == Min(|Unkicked(t, u)|, quota)
  }

  function Before(t: Table, u: Uid, s: Sid): set<Sid>
    requires s in t
  {
    set x | x in OfUser(t, u) && t[x].createTime < t[s].createTime
  }

  function NotAfter(t: Table, u: Uid, s: Sid): set<Sid>
    requires s in t
  {
    set x | x in OfUser(t, u) && t[x].createTime <= t[s].createTime
  }

  /**
   With `n` sessions over the quota: while the unkicked ones fit, each of them has `n` sessions before it;
   otherwise at most `n` sessions, a kicked one included, are not after any kicked one.
   */
  ghost predicate CutIsClean(t: Table, u: Uid, quota: nat)
  {
    var mine, free := OfUser(t, u), Unkicked(t, u);
    |mine| > quota ==>
      if |free| <= quota then forall b | b in free :: |Before(t, u, b)| >= |mine| - quota
      else forall a | a in mine && a !in free :: |NotAfter(t, u, a)| <= |mine| - quota
  }

  /** No session in `part` is newer than one of `mine` outside. */
  ghost predicate Lower(t: Table, mine: set<Sid>, part: set<Sid>)
    requires mine <= t.Keys && part <= mine
  {
    forall a, b | a in part && b in mine && b !in part :: t[a].createTime <= t[b].createTime
  }

  lemma {:induction false} Oldest(t: Table, sids: set<Sid>) returns (m: Sid)
    requires sids <= t.Keys && sids != {}
    ensures m in sids && forall x | x in sids :: t[m].createTime <= t[x].createTime
    decreases |sids|
  {
    var first :| first in sids;
    if sids == {first} {
      m := first;
    } else {
      SmallerSet(sids - {first}, sids);
      var rest := Oldest(t, sids - {first});
      m := if t[rest].createTime < t[first].createTime then rest else first;
    }
  }

  /** Some session that is not avoided and not yet in the part is not after `x`. */
  lemma AnotherBefore(near: set<Sid>, part: set<Sid>) returns (y: Sid)
    requires |part| < |near|
    ensures y in near && y !in part
  {
    if near <= part {
      NotLarger(near, part);
    }
    y :| y in near && y !in part;
  }

  /** Besides those avoided, at least `n` sessions are not after any of them. */
  ghost predicate Room(t: Table, u: Uid, avoid: set<Sid>, n: nat)
  {
    forall x | x in avoid :: x in OfUser(t, u) && |NotAfter(t, u, x) - avoid| >= n
  }

  /** A lower part grows by one, without `avoid`, when there is room. */
  lemma GrowOne(t: Table, mine: set<Sid>, u: Uid, part: set<Sid>, avoid: set<Sid>, n: nat) returns (m: Sid)
    requires mine == OfUser(t, u) && part <= mine - avoid && Lower(t, mine, part)
    requires |part| < n <= |mine - avoid| && Room(t, u, avoid, n)
    ensures m in mine - avoid && m !in part && Lower(t, mine, part + {m}) && |part + {m}| == |part| + 1
  {
    var rest := mine - avoid - part;
    var some := AnotherBefore(mine - avoid, part);
    assert some in rest;
    m := Oldest(t, rest);
    forall b | b in avoid ensures t[m].createTime <= t[b].createTime {
      var y := AnotherBefore(NotAfter(t, u, b) - avoid, part);
      assert y in rest;
    }
  }

  /** `chosen` is a lower part of size `n`, without `avoid`, that holds `part`. */
  ghost predicate Grown(t: Table, mine: set<Sid>, part: set<Sid>, avoid: set<Sid>, n: nat, chosen: set<Sid>)
    requires mine <= t.Keys
  {
    part <= chosen && chosen <= mine - avoid && Lower(t, mine, chosen) && |chosen| == n
  }

  lemma {:induction false} Grow(t: Table, mine: set<Sid>, u: Uid, part: set<Sid>, avoid: set<Sid>, n: nat, more: nat)
    returns (chosen: set<Sid>)
    requires mine == OfUser(t, u) && part <= mine - avoid && Lower(t, mine, part)
    requires |part| + more == n <= |mine - avoid| && Room(t, u, avoid, n)
    ensures Grown(t, mine, part, avoid, n, chosen)
    decreases more
  {
    if more == 0 {
      chosen := part;
    } else {
      var m := GrowOne(t, mine, u, part, avoid, n);
      chosen := Grow(t, mine, u, part + {m}, avoid, n, more - 1);
    }
  }

  /** When an unkicked session has too few before it, some selection takes it though all unkicked ones fit. */
  lemma TakesUnkicked(t: Table, u: Uid, quota: nat, b: Sid)
    requires b in Unkicked(t, u) && |Unkicked(t, u)| <= quota < |OfUser(t, u)|
    requires |Before(t, u, b)| < |OfUser(t, u)| - quota
    ensures !Exact(t, u, quota)
  {
    var n := |OfUser(t, u)| - quota;
    assert |Before(t, u, b) + {b}| <= n;
    assert OfUser(t, u) - {} == OfUser(t, u);
    var chosen := Grow(t, OfUser(t, u), u, Before(t, u, b) + {b}, {}, n, n - |Before(t, u, b) + {b}|);
    assert OverQuota(t, u, quota, chosen);
    var free := Unkicked(t, u);
    assert free - chosen < free by { assert b in free && b !in free - chosen; }
    SmallerSet(free - chosen, free);
  }

  /** When too many are not after a kicked session, some selection spares it and takes one unkicked too many. */
  lemma SparesKicked(t: Table, u: Uid, quota: nat, a: Sid)
    requires a in OfUser(t, u) && Kicked(t[a]) && |Unkicked(t, u)| > quota
    requires |NotAfter(t, u, a)| > |OfUser(t, u)| - quota
    ensures !Exact(t, u, quota)
  {
    var mine, free := OfUser(t, u), Unkicked(t, u);
    NotLarger(free, mine);
    var n := |mine| - quota;
    assert |NotAfter(t, u, a) - {a}| == |NotAfter(t, u, a)| - 1;
    NotLarger(NotAfter(t, u, a) - {a}, mine - {a});
    var chosen := Grow(t, mine, u, {}, {a}, n, n);
    assert OverQuota(t, u, quota, chosen);
    assert |mine - chosen| == quota;
    assert free - chosen < mine - chosen by { assert a in mine - chosen && a !in free - chosen; }
    SmallerSet(free - chosen, mine - chosen);
  }

  lemma CleanIsExact(t: Table, u: Uid, quota: nat, chosen: set<Sid>)
    requires CutIsClean(t, u, quota) && OverQuota(t, u, quota, chosen)
    ensures |Unkicked(t, u) - chosen| == Min(|Unkicked(t, u)|, quota)
  {
    var mine, free := OfUser(t, u), Unkicked(t, u);
    if |mine| > quota && |free| <= quota {
      forall b | b in chosen ensures b in mine - free {
        if b in free {
          assert Before(t, u, b) <= chosen - {b};
          NotLarger(Before(t, u, b), chosen - {b});
        }
      }
    } else if |mine| > quota {
      forall a | a in mine - free ensures a in chosen {
        if a !in chosen {
          assert chosen <= NotAfter(t, u, a) - {a};
          NotLarger(chosen, NotAfter(t, u, a) - {a});
        }
      }
    }
    StayCount(mine, free, chosen, quota);
  }

  /** For a given quota, every selection is exact, however ties are sorted, if and only if the cut is clean. */
  lemma ExactIff(t: Table, u: Uid, quota: nat)
    ensures Exact(t, u, quota) <==> CutIsClean(t, u, quota)
  {
    var mine, free := OfUser(t, u), Unkicked(t, u);
    if CutIsClean(t, u, quota) {
      forall chosen | OverQuota(t, u, quota, chosen) {
        CleanIsExact(t, u, quota, chosen);
      }
    } else if |free| <= quota {
      var b :| b in free && |Before(t, u, b)| < |mine| - quota;
      TakesUnkicked(t, u, quota, b);
    } else {
      var a :| a in mine && a !in free && |NotAfter(t, u, a)| > |mine| - quota;
      SparesKicked(t, u, quota, a);
    }
  }

  /** The cut is clean for every quota if and only if kicked sessions are older than unkicked ones. */
  lemma AlwaysExactIff(t: Table, u: Uid)
    ensures (forall quota: nat :: Exact(t, u, quota)) <==> KickedOlder(t, u)
  {
    if KickedOlder(t, u) {
      forall quota: nat, chosen | OverQuota(t, u, quota, chosen)
        ensures |Unkicked(t, u) - chosen| == Min(|Unkicked(t, u)|, quota)
      {
        ChosenKickedFirst(t, u, quota, chosen);
        StayCount(OfUser(t, u), Unkicked(t, u), chosen, quota);
      }
    } else {
      var a, b :| a in OfUser(t, u) && b in OfUser(t, u) && Kicked(t[a]) && !Kicked(t[b]) && t[b].createTime <= t[a].createTime;
      var quota, chosen := TieIsInexact(t, u, a, b);
    }
  }

  /** When a kicked session `a` is not older than an unkicked one `b`, for some quota some selection takes `b` and spares `a`. */
  lemma TieIsInexact(t: Table, u: Uid, a: Sid, b: Sid) returns (quota: nat, chosen: set<Sid>)
    requires a in OfUser(t, u) && b in OfUser(t, u) && Kicked(t[a]) && !Kicked(t[b])
    requires t[b].createTime <= t[a].createTime
    ensures OverQuota(t, u, quota, chosen) && b in chosen && a !in chosen
    ensures |Unkicked(t, u) - chosen| < Min(|Unkicked(t, u)|, quota) && !Exact(t, u, quota)
  {
    var mine, free := OfUser(t, u), Unkicked(t, u);
    chosen := set s | s in mine && (s == b || t[s].createTime < t[b].createTime);
    NotLarger(chosen, mine);
    quota := |mine| - |chosen|;
    assert OverQuota(t, u, quota, chosen);
    var stay := free - chosen;
    assert |mine - chosen| == quota;
    assert stay < mine - chosen by { assert a in mine - chosen && a !in stay; }
    SmallerSet(stay, mine - chosen);
    assert stay < free by { assert b in free && b !in stay; }
    SmallerSet(stay, free);
  }

  // ----- a run with ties -----

  /** Sessions of one user, not kicked off, created in the same second. */
  ghost predicate Twins(a: Session, b: Session)
  {
    a.sid != b.sid && a.uid == b.uid && a.createTime == b.createTime && !Kicked(a) && !Kicked(b)
  }

  function Second(a: Session, b: Session, now: int): Table
  {
    map[a.sid := a.(kickoffTime := now), b.sid := b]
  }

  function Third(a: Session, b: Session, c: Session, now: int): Table
  {
    map[a.sid := a.(kickoffTime := now), b.sid := b.(kickoffTime := now), c.sid := c.(kickoffTime := now)]
  }

  lemma FirstOnline(a: Session, now: int)
    ensures Step(1, map[], Receive(SessionOnline(a), now), map[a.sid := a], {})
  {
    var t := map[a.sid := a];
    assert OfUser(t, a.uid) == {a.sid};
    MarkNobody(t, now);
  }

  lemma SecondOnline(a: Session, b: Session, now: int)
    requires Twins(a, b)
    ensures Step(1, map[a.sid := a], Receive(SessionOnline(b), now), Second(a, b, now), {a.sid})
  {
    var t := map[a.sid := a, b.sid := b];
    assert map[a.sid := a][b.sid := b] == t;
    assert OfUser(t, b.uid) == {a.sid, b.sid};
    assert Mark(t, {a.sid}, now) == Second(a, b, now);
  }

  lemma ThirdOnline(a: Session, b: Session, c: Session, now: int)
    requires Twins(a, b) && Twins(a, c) && Twins(b, c)
    ensures Step(1, Second(a, b, now), Receive(SessionOnline(c), now), Third(a, b, c, now), {b.sid, c.sid})
  {
    var t := Second(a, b, now)[c.sid := c];
    assert OfUser(t, c.uid) == {a.sid, b.sid, c.sid};
    assert Mark(t, {b.sid, c.sid}, now) == Third(a, b, c, now);
  }

  /**
   With a quota of one, three sessions of a user created in the same second can leave the user with none:
   the second online kicks off the first session, and the third spares it and kicks off the other two.
   */
  lemma TiesLeaveNobody(a: Session, b: Session, c: Session, now: int)
    returns (run: seq<Table>, acts: seq<Action>, kicked: seq<set<Sid>>)
    requires Twins(a, b) && Twins(a, c) && Twins(b, c) && now > 0
    ensures acts == [Receive(SessionOnline(a), now), Receive(SessionOnline(b), now), Receive(SessionOnline(c), now)]
    ensures IsRun(1, run, acts, kicked)
    ensures |Unkicked(run[2], a.uid)| == 1 && Unkicked(run[3], a.uid) == {} && |OfUser(run[3], a.uid)| == 3
  {
    run := [map[], map[a.sid := a], Second(a, b, now), Third(a, b, c, now)];
    acts := [Receive(SessionOnline(a), now), Receive(SessionOnline(b), now), Receive(SessionOnline(c), now)];
    kicked := [{}, {a.sid}, {b.sid, c.sid}];
    FirstOnline(a, now);
    SecondOnline(a, b, now);
    ThirdOnline(a, b, c, now);
    assert Unkicked(run[2], a.uid) == {b.sid};
    assert OfUser(run[3], a.uid) == {a.sid, b.sid, c.sid};
  }

  // ----- whole runs -----

  /** Each session of the list is in the table as it is, or arrives last. */
  ghost predicate ArriveInOrder(t: Table, list: seq<Session>)
  {
    list == [] ||
    var n := |list| - 1;
    var t1 := AddAll(t, list[..n]);
    ArriveInOrder(t, list[..n]) && ((list[n].sid in t1 && t1[list[n].sid] == list[n]) || ArrivesLast(t1, list[n]))
  }

  /** New sessions arrive in order of creation. */
  ghost predicate InOrder(t: Table, act: Action)
  {
    && act.now > 0
    && match act
       case Receive(SessionOnline(sess), _) => ArrivesLast(t, sess)
       case Receive(SyncSessions(list), _) => ArriveInOrder(t, list)
       case _ => true
  }

  /** The users with sessions from a sync, since when they had no online and no clean. */
  function Unsettled(acts: seq<Action>): set<Uid>
  {
    if acts == [] then {}
    else
      var before := Unsettled(acts[..|acts| - 1]);
      match acts[|acts| - 1]
      case Receive(SessionOnline(sess), _) => before - {sess.uid}
      case Receive(SessionOffline(_), _) => before
      case Receive(SyncSessions(list), _) => before + UidsOf(list)
      case Clean(_) => {}
  }

  function UidsOf(list: seq<Session>): set<Uid>
  {
    set i | 0 <= i < |list| :: list[i].uid
  }

  ghost predicate Fits(t: Table, quota: nat, u: Uid)
  {
    |Unkicked(t, u)| <= quota
  }

  lemma OfflineKeeps(t: Table, sid: Sid, quota: nat, u: Uid)
    requires Inv(t)
    ensures Inv(t - {sid}) && (Fits(t, quota, u) ==> Fits(t - {sid}, quota, u))
  {
    var t' := t - {sid};
    forall v ensures KickedOlder(t', v) {
      assert KickedOlder(t, v) && OfUser(t', v) <= OfUser(t, v);
    }
    assert Unkicked(t', u) <= Unkicked(t, u);
    NotLarger(Unkicked(t', u), Unkicked(t, u));
  }

  lemma {:induction false} SyncKeeps(t: Table, list: seq<Session>, quota: nat, u: Uid)
    requires Inv(t) && ArriveInOrder(t, list)
    ensures Inv(AddAll(t, list)) && (u !in UidsOf(list) && Fits(t, quota, u) ==> Fits(AddAll(t, list), quota, u))
  {
    if list != [] {
      var n := |list| - 1;
      var t1, last := AddAll(t, list[..n]), list[n];
      SyncKeeps(t, list[..n], quota, u);
      assert last.uid in UidsOf(list) && UidsOf(list[..n]) <= UidsOf(list);
      if last.sid in t1 && t1[last.sid] == last {
        assert t1[last.sid := last] == t1;
      } else {
        AddedKeepsInv(t1, last);
        if u != last.uid {
          assert Unkicked(t1[last.sid := last], u) == Unkicked(t1, u);
        }
      }
    }
  }

  lemma StepKeeps(quota: nat, t: Table, act: Action, t': Table, kicked: set<Sid>, u: Uid)
    requires Inv(t) && InOrder(t, act) && Step(quota, t, act, t', kicked)
    ensures Inv(t')
    ensures match act
            case Receive(SessionOnline(sess), _) => Fits(t, quota, u) || u == sess.uid ==> Fits(t', quota, u)
            case Receive(SessionOffline(_), _) => Fits(t, quota, u) ==> Fits(t', quota, u)
            case Receive(SyncSessions(list), _) => Fits(t, quota, u) && u !in UidsOf(list) ==> Fits(t', quota, u)
            case Clean(_) => Fits(t', quota, u)
  {
    match act
    case Clean(now) =>
      CleanKeepsInv(quota, t, now, t', kicked);
      CleanPass(quota, t, now, t', kicked, u);
    case Receive(SessionOffline(sid), now) =>
      OfflineKeeps(t, sid, quota, u);
      MarkNobody(t - {sid}, now);
    case Receive(SyncSessions(list), now) =>
      SyncKeeps(t, list, quota, u);
      MarkNobody(AddAll(t, list), now);
    case Receive(SessionOnline(sess), now) =>
      OnlineKeepsInv(quota, t, sess, now, t', kicked);
      OnlinePass(quota, t, sess, now, t', kicked, u);
  }

  /**
   In every run in which a user's sessions arrive with increasing create times, every kicked session is
   older than every unkicked one, and no user has more unkicked sessions than the quota, unless some came
   with a sync, which does not look at the quota, and the user had no online and no clean since.
   */
  lemma {:induction false} QuotaOverRuns(quota: nat, run: seq<Table>, acts: seq<Action>, kicked: seq<set<Sid>>, n: nat, u: Uid)
    requires IsRun(quota, run, acts, kicked) && n < |run|
    requires forall m :: 0 <= m < |acts| ==> InOrder(run[m], acts[m])
    ensures Keyed(run[n]) && DistinctTimes(run[n]) && KickedAreOlder(run[n])
    ensures u !in Unsettled(acts[..n]) ==> |Unkicked(run[n], u)| <= quota
  {
    if n > 0 {
      QuotaOverRuns(quota, run, acts, kicked, n - 1, u);
      StepKeeps(quota, run[n - 1], acts[n - 1], run[n], kicked[n - 1], u);
      assert acts[..n][..n - 1] == acts[..n - 1];
    } else {
      assert Unkicked(run[0], u) == {};
    }
  }
}
