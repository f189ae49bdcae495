/** Sessions, and which of a user's sessions are over the quota. */
module Sessions {

  type Uid = int
  type Sid = string
  type HubId = string

  /** Seconds since the kickoff after which a session is deleted. */
  const DELETE_SINCE_KICKOFF_TTL := 60

  datatype Session = Session(hubId: HubId, uid: Uid, sid: Sid, createTime: int, kickoffTime: int)

  /** What a hub reports: a new session, a closed one, or all it has. */
  datatype FollowerMsg = SessionOnline(sess: Session) | SessionOffline(sid: Sid) | SyncSessions(list: seq<Session>)

  /** What makes the server act: a message, or the cleaning timer. */
  datatype Action = Receive(msg: FollowerMsg, now: int) | Clean(now: int)

  type Table = map<Sid, Session>

  predicate Kicked(s: Session)
  {
    s.kickoffTime > 0
  }

  predicate Expired(s: Session, now: int)
  {
    Kicked(s) && now > s.kickoffTime + DELETE_SINCE_KICKOFF_TTL
  }

  /** The entry at a session id carries that id. */
  ghost predicate Keyed(t: Table)
  {
    forall s | s in t :: t[s].sid == s
  }

  function AddAll(t: Table, list: seq<Session>): Table
  {
    if list == [] then t
    else
      var last := list[|list| - 1];
      AddAll(t, list[..|list| - 1])[last.sid := last]
  }

  /** The table after the sessions `sids` were given a kickoff time. */
  function Mark(t: Table, sids: set<Sid>, now: int): Table
  {
    map s | s in t :: if s in sids then t[s].(kickoffTime := now) else t[s]
  }

  /** The table without the sessions whose kickoff is too long ago. */
  function Unexpired(t: Table, now: int): Table
  {
    map s | s in t && !Expired(t[s], now) :: t[s]
  }

  function ToSet(sids: seq<Sid>): set<Sid>
  {
    set s | s in sids
  }

  function OfUser(t: Table, u: Uid): set<Sid>
  {
    set s | s in t && t[s].uid == u
  }

  /**
   `chosen` are as many of the user's sessions as exceed the quota, none newer than one that stays.
   Sessions created in the same second may be chosen either way, as the sort does not fix their order.
   */
  ghost predicate OverQuota(t: Table, u: Uid, quota: nat, chosen: set<Sid>)
  {
    && chosen <= OfUser(t, u)
    && |chosen| == (if |OfUser(t, u)| > quota then |OfUser(t, u)| - quota else 0)
    && forall a, b | a in chosen && b in OfUser(t, u) && b !in chosen :: t[a].createTime <= t[b].createTime
  }

  /** The same for every user at once. */
  ghost predicate OverQuotaAll(t: Table, quota: nat, chosen: set<Sid>)
  {
    && chosen <= t.Keys
    && forall u :: OverQuota(t, u, quota, chosen * OfUser(t, u))
  }

  /** Which sessions of table `t` an action may kick off: after an online, of that user; in a clean, of everyone. */
  ghost predicate Selects(t: Table, act: Action, quota: nat, chosen: set<Sid>)
  {
    match act
    case Receive(SessionOnline(sess), _) => OverQuota(t, sess.uid, quota, chosen)
    case Receive(_, _) => chosen == {}
    case Clean(_) => OverQuotaAll(t, quota, chosen)
  }

  lemma MarkNobody(t: Table, now: int)
    ensures Mark(t, {}, now) == t
  {
  }

  /** The sessions of a user were created at different times. */
  ghost predicate DistinctTimes(t: Table)
  {
    forall a, b | a in t && b in t && a != b && t[a].uid == t[b].uid :: t[a].createTime != t[b].createTime
  }

  lemma ChosenByBoth(t: Table, u: Uid, quota: nat, c1: set<Sid>, c2: set<Sid>)
    requires DistinctTimes(t) && OverQuota(t, u, quota, c1) && OverQuota(t, u, quota, c2)
    ensures c1 <= c2
  {
    forall a | a in c1 ensures a in c2 {
      if a !in c2 && forall b | b in c2 :: b in c1 {
        SmallerSet(c2, c1);
      }
    }
  }

  /** With distinct create times the selection is determined. */
  lemma OverQuotaIsUnique(t: Table, u: Uid, quota: nat, c1: set<Sid>, c2: set<Sid>)
    requires DistinctTimes(t) && OverQuota(t, u, quota, c1) && OverQuota(t, u, quota, c2)
    ensures c1 == c2
  {
    ChosenByBoth(t, u, quota, c1, c2);
    ChosenByBoth(t, u, quota, c2, c1);
  }

  lemma SmallerSet<T>(a: set<T>, b: set<T>)
    requires a < b
    ensures |a| < |b|
  {
    assert |b - a| + |a| == |b|;
    assert b - a != {};
  }
}
