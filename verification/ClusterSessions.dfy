/** The leader's session table, one part per hub, and what messages and garbage collection do to it. */
module ClusterSessions {
  import opened Sessions

  type Store = map<HubId, Table>

  /** The entry at (hub, sid) carries that hub and that sid. */
  ghost predicate Owned(kv: Store)
  {
    forall h | h in kv :: Keyed(kv[h]) && forall s | s in kv[h] :: kv[h][s].hubId == h
  }

  /** Session ids are globally unique. */
  ghost predicate UniqueSids(kv: Store)
  {
    forall h, g, s | h in kv && g in kv && s in kv[h] && s in kv[g] :: h == g
  }

  ghost predicate Valid(kv: Store)
  {
    Owned(kv) && UniqueSids(kv)
  }

  function HubTable(kv: Store, h: HubId): Table
  {
    if h in kv then kv[h] else map[]
  }

  function Sids(kv: Store): set<Sid>
  {
    set h, s | h in kv && s in kv[h] :: s
  }

  ghost function HubOf(kv: Store, s: Sid): (h: HubId)
    requires s in Sids(kv)
    ensures h in kv && s in kv[h]
  {
    var h :| h in kv && s in kv[h];
    h
  }

  /** All sessions, by id. */
  ghost function Flat(kv: Store): Table
  {
    map s | s in Sids(kv) :: kv[HubOf(kv, s)][s]
  }

  lemma FlatAt(kv: Store, h: HubId, s: Sid)
    requires UniqueSids(kv) && h in kv && s in kv[h]
    ensures s in Flat(kv) && Flat(kv)[s] == kv[h][s]
  {
    assert s in Sids(kv);
    assert HubOf(kv, s) == h;
  }

  lemma FlatKeyed(kv: Store)
    requires Valid(kv)
    ensures Keyed(Flat(kv))
  {
  }

  // ----- what happens to the table -----

  function Tag(list: seq<Session>, h: HubId): seq<Session>
  {
    seq(|list|, i requires 0 <= i < |list| => list[i].(hubId := h))
  }

  function AddTo(kv: Store, h: HubId, sess: Session): Store
  {
    kv[h := HubTable(kv, h)[sess.sid := sess.(hubId := h)]]
  }

  function AddManyTo(kv: Store, h: HubId, list: seq<Session>): Store
  {
    kv[h := AddAll(HubTable(kv, h), Tag(list, h))]
  }

  function DelFrom(kv: Store, h: HubId, sid: Sid): Store
  {
    if h in kv then kv[h := kv[h] - {sid}] else kv
  }

  /** Hubs that are not live are dropped, and so is what was kicked off too long ago. */
  function Collected(kv: Store, live: set<HubId>, now: int): Store
  {
    map h | h in kv && h in live :: Unexpired(kv[h], now)
  }

  /** The sessions `sids` of the hubs `hubs` get a kickoff time. */
  function MarkIn(kv: Store, sids: set<Sid>, hubs: set<HubId>, now: int): Store
  {
    map h | h in kv :: if h in hubs then Mark(kv[h], sids, now) else kv[h]
  }

  /** The kickoff messages for the sessions `sids`: one per connected hub that owns some, naming just those. */
  function Route(kv: Store, sids: set<Sid>, streams: set<HubId>): map<HubId, set<Sid>>
  {
    map h | h in kv && h in streams && sids * kv[h].Keys != {} :: sids * kv[h].Keys
  }

  /** The table on which an action selects; messages come from hub `h`. */
  function Updated(kv: Store, streams: set<HubId>, h: HubId, act: Action): Store
  {
    match act
    case Receive(SessionOnline(sess), _) => AddTo(kv, h, sess)
    case Receive(SessionOffline(sid), _) => DelFrom(kv, h, sid)
    case Receive(SyncSessions(list), _) => AddManyTo(kv, h, list)
    case Clean(now) => Collected(kv, streams, now)
  }

  /** What an action does to the table when it selects `chosen`, and the kickoff messages it causes. */
  ghost predicate Step(quota: nat, kv: Store, streams: set<HubId>, h: HubId, act: Action, chosen: set<Sid>,
                       kv': Store, sent: map<HubId, set<Sid>>)
  {
    var kv1 := Updated(kv, streams, h, act);
    && Selects(Flat(kv1), act, quota, chosen)
    && kv' == MarkIn(kv1, chosen, streams, act.now)
    && sent == Route(kv1, chosen, streams)
  }

  /** A run from the empty table in which only hub `h` exists and stays connected. */
  ghost predicate IsOneHubRun(quota: nat, h: HubId, run: seq<Store>, acts: seq<Action>, chosen: seq<set<Sid>>,
                              sent: seq<map<HubId, set<Sid>>>)
  {
    && |run| == |acts| + 1 == |chosen| + 1 == |sent| + 1 && run[0] == map[]
    && forall n :: 0 <= n < |acts| ==> Step(quota, run[n], {h}, h, acts[n], chosen[n], run[n + 1], sent[n])
  }

  // ----- what it guarantees -----

  /** The id is new to the table, or was reported by the same hub. */
  ghost predicate FreshFor(kv: Store, h: HubId, s: Sid)
  {
    forall g | g in kv && g != h :: s !in kv[g]
  }

  lemma AddKeepsValid(kv: Store, h: HubId, sess: Session)
    requires Valid(kv) && FreshFor(kv, h, sess.sid)
    ensures Valid(AddTo(kv, h, sess))
  {
  }

  /** Adding sessions tagged with a hub adds just their ids, and entries that carry the hub. */
  lemma {:induction false} AddAllTagged(t: Table, list: seq<Session>, h: HubId)
    requires Keyed(t) && forall s | s in t :: t[s].hubId == h
    ensures var t' := AddAll(t, Tag(list, h));
            && Keyed(t') && (forall s | s in t' :: t'[s].hubId == h)
            && forall s | s in t' && s !in t :: exists i :: 0 <= i < |list| && list[i].sid == s
  {
    if list != [] {
      var n := |list| - 1;
      AddAllTagged(t, list[..n], h);
      assert Tag(list, h)[..n] == Tag(list[..n], h);
      var t1, t' := AddAll(t, Tag(list[..n], h)), AddAll(t, Tag(list, h));
      forall s | s in t' && s !in t ensures exists i :: 0 <= i < |list| && list[i].sid == s {
        if s in t1 {
          var i :| 0 <= i < n && list[..n][i].sid == s;
          assert list[i].sid == s;
        } else {
          assert list[n].sid == s;
        }
      }
    }
  }

  lemma AddManyKeepsValid(kv: Store, h: HubId, list: seq<Session>)
    requires Valid(kv) && forall i :: 0 <= i < |list| ==> FreshFor(kv, h, list[i].sid)
    ensures Valid(AddManyTo(kv, h, list))
  {
    AddAllTagged(HubTable(kv, h), list, h);
  }

  lemma DelKeepsValid(kv: Store, h: HubId, sid: Sid)
    requires Valid(kv)
    ensures Valid(DelFrom(kv, h, sid))
  {
  }

  lemma CollectKeepsValid(kv: Store, live: set<HubId>, now: int)
    requires Valid(kv)
    ensures Valid(Collected(kv, live, now))
  {
  }

  lemma MarkKeepsValid(kv: Store, sids: set<Sid>, hubs: set<HubId>, now: int)
    requires Valid(kv)
    ensures Valid(MarkIn(kv, sids, hubs, now))
  {
  }

  /**
   Kickoff routing conserves sessions: a session id goes to one hub only, the one that owns it;
   together the messages name the selected sessions of the connected hubs; and exactly those get
   the kickoff time, the others stay as they were.
   */
  lemma RoutingConserves(kv: Store, sids: set<Sid>, streams: set<HubId>, now: int)
    requires Valid(kv) && sids <= Sids(kv)
    ensures var sent := Route(kv, sids, streams);
            && (forall h, g | h in sent && g in sent && h != g :: sent[h] !! sent[g])
            && (forall h, s | h in sent && s in sent[h] :: h in kv && s in kv[h] && kv[h][s].hubId == h)
            && (forall s :: (exists h | h in sent :: s in sent[h]) <==> s in sids && HubOf(kv, s) in streams)
            && (forall h, s | h in kv && s in kv[h] ::
                  MarkIn(kv, sids, streams, now)[h][s] ==
                  if h in sent && s in sent[h] then kv[h][s].(kickoffTime := now) else kv[h][s])
  {
    var sent := Route(kv, sids, streams);
    forall h, g | h in sent && g in sent && h != g ensures sent[h] !! sent[g] {
      forall s | s in sent[h] ensures s !in sent[g] {
      }
    }
    forall s ensures (exists h | h in sent :: s in sent[h]) <==> s in sids && HubOf(kv, s) in streams {
      if s in sids && HubOf(kv, s) in streams {
        var h := HubOf(kv, s);
        assert s in sids * kv[h].Keys;
        assert h in sent && s in sent[h];
      }
    }
    forall h, s | h in kv && s in kv[h]
      ensures (h in sent && s in sent[h]) <==> (h in streams && s in sids)
    {
      if h in streams && s in sids {
        assert s in sids * kv[h].Keys;
      }
    }
  }

  /**
   With distinct create times, what garbage collection selects of a user is what the per-user
   selection chooses on the table it leaves: the sessions over the quota, none newer than one that stays.
   */
  lemma CollectorAgreesWithSelector(kv: Store, live: set<HubId>, now: int, quota: nat, chosen: set<Sid>, u: Uid, c: set<Sid>)
    requires DistinctTimes(Flat(Collected(kv, live, now)))
    requires OverQuotaAll(Flat(Collected(kv, live, now)), quota, chosen)
    requires OverQuota(Flat(Collected(kv, live, now)), u, quota, c)
    ensures c == chosen * OfUser(Flat(Collected(kv, live, now)), u)
  {
    var t := Flat(Collected(kv, live, now));
    OverQuotaIsUnique(t, u, quota, c, chosen * OfUser(t, u));
  }
}
