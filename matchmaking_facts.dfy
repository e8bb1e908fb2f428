/**
 * Properties of the matchmaking coordinator, proved about the step functions
 * that its methods are proved equal to.
 */
module MatchmakingFacts {
  import opened Wrappers
  import opened SortedSet
  import opened Realtime
  import opened Matchmaking

  // ---------------------------------------------------------------------------
  // Removal

  lemma UniqueIdsOne(x: string)
    requires x != ""
    ensures UniqueIds([Some(x)]) == [x]
    ensures Elements([x]) == {x}
  {
    var ids := [Some(x)];
    assert ids[1..] == [];
    assert Truthy(ids) == [x] + Truthy([]);
    var s := [x];
    assert s[..|s| - 1] == [];
    assert Dedupe(s) == Dedupe([]) + [x];
  }

  lemma UniqueIdsTwo(x: string, y: string)
    requires x != "" && y != ""
    ensures UniqueIds([Some(x), Some(y)]) != []
    ensures Elements(UniqueIds([Some(x), Some(y)])) == {x, y}
  {
    UniqueIdsSpec([Some(x), Some(y)]);
    assert Some(x) in [Some(x), Some(y)];
  }

  /** `removePlayersFromQueue` removes exactly the usable ids from the queue and their keys from the store. */
  lemma RemovePlayersEffect(w: World, ids: seq<Option<string>>)
    ensures RemovePlayersSpec(w, ids).queue == RemoveAll(w.queue, Elements(UniqueIds(ids)))
    ensures RemovePlayersSpec(w, ids).meta == w.meta - MetaKeys(Elements(UniqueIds(ids)))
    ensures UniqueIds(ids) == [] ==> RemovePlayersSpec(w, ids) == w
    ensures UniqueIds(ids) != [] ==> RemovePlayersSpec(w, ids).events == w.events + [QueueUpdate(|RemovePlayersSpec(w, ids).queue|)]
  {
    if UniqueIds(ids) == [] {
      assert Elements([]) == {};
      RemoveAllAbsent(w.queue, {});
      assert w.meta - MetaKeys({}) == w.meta;
    }
  }

  /** Between two worlds, the event log only grew, and only by queue updates. */
  predicate OnlyQueueUpdates(before: seq<Event>, after: seq<Event>) {
    before <= after && forall i :: |before| <= i < |after| ==> after[i].name == QUEUE_UPDATE_EVENT
  }

  lemma OnlyQueueUpdatesTransitive(a: seq<Event>, b: seq<Event>, c: seq<Event>)
    requires OnlyQueueUpdates(a, b) && OnlyQueueUpdates(b, c)
    ensures OnlyQueueUpdates(a, c)
  {
    forall i | |a| <= i < |c| ensures c[i].name == QUEUE_UPDATE_EVENT {
      if i < |b| {
        assert c[i] == b[i];
      }
    }
  }

  lemma EmitQueueSizeValid(w: World)
    requires ValidWorld(w)
    ensures ValidWorld(EmitQueueSizeSpec(w))
    ensures OnlyQueueUpdates(w.events, EmitQueueSizeSpec(w).events)
  {
    QueueUpdateAccepted(|w.queue|);
  }

  lemma RemovePlayersValid(w: World, ids: seq<Option<string>>)
    requires ValidWorld(w)
    ensures ValidWorld(RemovePlayersSpec(w, ids))
    ensures OnlyQueueUpdates(w.events, RemovePlayersSpec(w, ids).events)
  {
    var unique := UniqueIds(ids);
    if unique != [] {
      RemoveAllSorted(w.queue, Elements(unique));
      EmitQueueSizeValid(WithoutIds(w, Elements(unique)));
    }
  }

  lemma StorePlayerValid(w: World, p: Player)
    requires ValidWorld(w)
    ensures ValidWorld(StorePlayerSpec(w, p))
    ensures OnlyQueueUpdates(w.events, StorePlayerSpec(w, p).events)
  {
    StorePipeline(w, p);
    EmitQueueSizeValid(w.(queue := ZAdd(w.queue, p.id, p.joinedAt), meta := w.meta[PlayerMetaKey(p.id) := PlayerJson(p)]));
  }

  // ---------------------------------------------------------------------------
  // Enrolment

  /**
   * After the dedupe removal and the ZADD, the queue holds the caller exactly
   * once, scored by the new `joinedAt`; every other entry is the one it was;
   * the caller's record is the new one and every other record is untouched.
   */
  lemma EnrolledOnce(w: World, p: Player)
    requires ValidWorld(w) && p.id != ""
    ensures ValidWorld(Enrolled(w, p))
    ensures OnlyQueueUpdates(w.events, Enrolled(w, p).events)
    ensures Entry(p.id, p.joinedAt) in Enrolled(w, p).queue
    ensures forall x :: x in Enrolled(w, p).queue && x.member == p.id ==> x == Entry(p.id, p.joinedAt)
    ensures forall x :: x in Enrolled(w, p).queue && x.member != p.id <==> x in w.queue && x.member != p.id
    ensures MetaOf(Enrolled(w, p).meta, p.id) == Some(PlayerJson(p))
    ensures forall other :: other != p.id ==> MetaOf(Enrolled(w, p).meta, other) == MetaOf(w.meta, other)
  {
    var w1 := RemovePlayersSpec(w, [Some(p.id)]);
    UniqueIdsOne(p.id);
    RemovePlayersEffect(w, [Some(p.id)]);
    RemovePlayersValid(w, [Some(p.id)]);
    StorePlayerValid(w1, p);
    OnlyQueueUpdatesTransitive(w.events, w1.events, Enrolled(w, p).events);
    ZAddSorted(w1.queue, p.id, p.joinedAt);
    forall other | other != p.id
      ensures MetaOf(Enrolled(w, p).meta, other) == MetaOf(w.meta, other)
    {
      if PlayerMetaKey(other) == PlayerMetaKey(p.id) {
        PlayerMetaKeyInjective(other, p.id);
      }
    }
  }

  // ---------------------------------------------------------------------------
  // Pairing

  /**
   * `tryMatch` finds no opponent when the queue has fewer than two members or
   * the caller is not one of the two lowest-ranked; otherwise the opponent is
   * the other of those two (provided its id is not empty).
   */
  lemma OpponentCases(q: seq<Entry>, selfId: string)
    requires IsSortedSet(q)
    ensures Opponent(q, selfId).Some? <==>
      && |q| >= 2
      && (q[0].member == selfId || q[1].member == selfId)
      && (if q[0].member == selfId then q[1].member else q[0].member) != ""
    ensures Opponent(q, selfId).Some? ==>
      && Opponent(q, selfId).value != selfId
      && Opponent(q, selfId).value == (if q[0].member == selfId then q[1].member else q[0].member)
  {
    var leaders := Range(q, 0, 1);
    if |q| >= 2 {
      assert leaders == [q[0].member, q[1].member];
    }
  }

  /**
   * First come, first served: a caller ranked behind two other waiting
   * members is not paired, whoever it is.
   */
  lemma NoQueueJumping(q: seq<Entry>, c: Entry, a: Entry, b: Entry)
    requires IsSortedSet(q) && c in q && a in q && b in q
    requires a.member != b.member && a.member != c.member && b.member != c.member
    requires Before(a, c) && Before(b, c)
    ensures Opponent(q, c.member) == None
  {
    OpponentCases(q, c.member);
    var i :| 0 <= i < |q| && q[i] == a;
    var j :| 0 <= j < |q| && q[j] == b;
    var k :| 0 <= k < |q| && q[k] == c;
    if |q| >= 2 && (q[0].member == c.member || q[1].member == c.member) {
      var m := if q[0].member == c.member then 0 else 1;
      UniqueEntry(q, q[m], c);
      var later := if i > m then i else j;
      assert later > m;
      assert Before(c, q[later]);
      BeforeAsymmetric(q[later], c);
    }
  }

  lemma OpponentFacts(q: seq<Entry>, selfId: string)
    requires IsSortedSet(q) && Opponent(q, selfId).Some?
    ensures Opponent(q, selfId).value != selfId && Opponent(q, selfId).value != ""
  {
    OpponentCases(q, selfId);
  }

  /**
   * Self-healing: with an absent or stale opponent record only the opponent
   * is removed; else with an absent or stale own record only the caller is
   * removed; else both are removed and the opponent's record is returned.
   * No other member ever leaves the queue.
   */
  lemma TryMatchHeals(w: World, current: Player, now: int)
    requires ValidWorld(w) && current.id != "" && Opponent(w.queue, current.id).Some?
    ensures var o := Opponent(w.queue, current.id).value;
      var opponentMeta := ParsePlayerMeta(MetaOf(w.meta, o), now);
      var selfMeta := ParsePlayerMeta(MetaOf(w.meta, current.id), now);
      var removed := if opponentMeta.None? then {o} else if selfMeta.None? then {current.id} else {current.id, o};
      && TryMatchSpec(w, current, now).0.queue == RemoveAll(w.queue, removed)
      && TryMatchSpec(w, current, now).0.meta == w.meta - MetaKeys(removed)
      && TryMatchSpec(w, current, now).1 == (if opponentMeta.Some? && selfMeta.Some? then opponentMeta else None)
      && (forall e :: e in w.queue && e.member != o && e.member != current.id ==> e in TryMatchSpec(w, current, now).0.queue)
  {
    var o := Opponent(w.queue, current.id).value;
    OpponentFacts(w.queue, current.id);
    UniqueIdsOne(o);
    UniqueIdsOne(current.id);
    UniqueIdsTwo(current.id, o);
    RemovePlayersEffect(w, [Some(o)]);
    RemovePlayersEffect(w, [Some(current.id)]);
    RemovePlayersEffect(w, [Some(current.id), Some(o)]);
  }

  lemma TryMatchValid(w: World, current: Player, now: int)
    requires ValidWorld(w)
    ensures ValidWorld(TryMatchSpec(w, current, now).0)
    ensures OnlyQueueUpdates(w.events, TryMatchSpec(w, current, now).0.events)
  {
    match Opponent(w.queue, current.id)
    case None =>
    case Some(o) =>
      RemovePlayersValid(w, [Some(o)]);
      RemovePlayersValid(w, [Some(current.id)]);
      RemovePlayersValid(w, [Some(current.id), Some(o)]);
  }

  // ---------------------------------------------------------------------------
  // joinMatchmaking

  /** A missing player id is refused before the store or the channel is touched. */
  lemma JoinRejectsMissingId(w: World, username: Option<string>, env: Environment)
    ensures JoinSpec(w, "", username, env) == (w, Failure(PlayerIdRequired))
  {
  }

  /**
   * The coordinator keeps its invariant, and so publishes only payloads that
   * the channel's schemas accept; the event log only grows.
   */
  lemma JoinKeepsValid(w: World, playerId: string, username: Option<string>, env: Environment)
    requires ValidWorld(w)
    ensures ValidWorld(JoinSpec(w, playerId, username, env).0)
    ensures w.events <= JoinSpec(w, playerId, username, env).0.events
  {
    if playerId != "" {
      var current := Player(playerId, username, env.joinedAt);
      var e := Enrolled(w, current);
      EnrolledOnce(w, current);
      TryMatchValid(e, current, env.checkedAt);
      var paired := TryMatchSpec(e, current, env.checkedAt);
      assert w.events <= paired.0.events;
      var after := JoinSpec(w, playerId, username, env).0;
      if paired.1.None? {
        if |paired.0.queue| == 1 {
          assert after == RemovePlayersSpec(paired.0, [Some(playerId)]);
          RemovePlayersValid(paired.0, [Some(playerId)]);
        } else {
          assert after == paired.0;
        }
      } else {
        TryMatchOpponentSound(e, current, env.checkedAt);
        PlayerJsonValid(current);
        var players := [paired.1.value, PlayerJson(current)];
        MatchFoundAccepted(env.roomUuid, players);
        assert after == paired.0.(events := paired.0.events + [MatchFound(env.roomUuid, players)]);
        EventsAppend(paired.0.events, MatchFound(env.roomUuid, players));
      }
    }
  }

  lemma EventsAppend(events: seq<Event>, ev: Event)
    requires EventsAccepted(events) && Accepts(ev.name, ev.payload)
    ensures EventsAccepted(events + [ev])
  {
    assert forall i :: 0 <= i < |events| ==> (events + [ev])[i] == events[i];
  }

  /** The opponent `joinMatchmaking` pairs the caller with, if any. */
  function PairedOpponent(w: World, current: Player): Option<string> {
    Opponent(Enrolled(w, current).queue, current.id)
  }

  /**
   * A real match lists the opponent first, with the record it stored, and
   * the caller second; it announces the same room and players on the channel,
   * and both players have left the queue.
   */
  lemma JoinRealMatch(w: World, playerId: string, username: Option<string>, env: Environment)
    requires ValidWorld(w)
    requires JoinSpec(w, playerId, username, env).1.Success?
    requires JoinSpec(w, playerId, username, env).1.value.Matched?
    requires !JoinSpec(w, playerId, username, env).1.value.isMock
    ensures var current := Player(playerId, username, env.joinedAt);
      var r := JoinSpec(w, playerId, username, env).1.value;
      var after := JoinSpec(w, playerId, username, env).0;
      && r.roomId == env.roomUuid
      && |r.players| == 2
      && r.players[1] == PlayerJson(current)
      && PairedOpponent(w, current).Some?
      && PairedOpponent(w, current).value != playerId
      && MetaOf(w.meta, PairedOpponent(w, current).value) == Some(r.players[0])
      && playerId !in Members(after.queue)
      && PairedOpponent(w, current).value !in Members(after.queue)
      && |after.events| > 0
      && after.events[|after.events| - 1] == MatchFound(r.roomId, r.players)
  {
    var current := Player(playerId, username, env.joinedAt);
    var e := Enrolled(w, current);
    EnrolledOnce(w, current);
    var o := Opponent(e.queue, playerId).value;
    TryMatchHeals(e, current, env.checkedAt);
    var removed := {playerId, o};
    RemoveAllMembers(e.queue, removed);
    ParsePlayerMetaCases(MetaOf(e.meta, o), env.checkedAt);
  }

  /**
   * The mock fallback fires exactly when pairing found no opponent and left
   * exactly one member. It then removes the caller and returns a `mock-` room
   * with a roster opponent first and the caller second. That opponent is not
   * the caller, even ignoring case. No match is announced.
   */
  lemma JoinMockMatch(w: World, playerId: string, username: Option<string>, env: Environment)
    requires ValidWorld(w) && playerId != ""
    ensures var current := Player(playerId, username, env.joinedAt);
      var r := JoinSpec(w, playerId, username, env).1;
      var paired := TryMatchSpec(Enrolled(w, current), current, env.checkedAt);
      (r.Success? && r.value.Matched? && r.value.isMock) <==> (paired.1.None? && |paired.0.queue| == 1)
    ensures var current := Player(playerId, username, env.joinedAt);
      var r := JoinSpec(w, playerId, username, env).1;
      var after := JoinSpec(w, playerId, username, env).0;
      var paired := TryMatchSpec(Enrolled(w, current), current, env.checkedAt);
      var opponent := PickMockOpponent(playerId, env.mockDraw, env.mockAt);
      paired.1.None? && |paired.0.queue| == 1 ==>
        && r == Success(Matched("mock-" + env.roomUuid, [PlayerJson(opponent), PlayerJson(current)], true))
        && ToLower(opponent.id) != ToLower(playerId)
        && playerId !in Members(after.queue)
        && OnlyQueueUpdates(w.events, after.events)
  {
    var current := Player(playerId, username, env.joinedAt);
    var e := Enrolled(w, current);
    var paired := TryMatchSpec(e, current, env.checkedAt);
    if paired.1.None? && |paired.0.queue| == 1 {
      EnrolledOnce(w, current);
      TryMatchValid(e, current, env.checkedAt);
      OnlyQueueUpdatesTransitive(w.events, e.events, paired.0.events);
      UniqueIdsOne(playerId);
      RemovePlayersEffect(paired.0, [Some(playerId)]);
      RemovePlayersValid(paired.0, [Some(playerId)]);
      var after := JoinSpec(w, playerId, username, env).0;
      assert after == RemovePlayersSpec(paired.0, [Some(playerId)]);
      OnlyQueueUpdatesTransitive(w.events, paired.0.events, after.events);
      RemoveAllMembers(paired.0.queue, {playerId});
      MockOpponentDiffers(playerId, env.mockDraw, env.mockAt);
    }
  }

  /**
   * A caller who finds two members waiting ahead of it waits in turn: it is
   * queued once, nobody is removed, and no match is announced.
   */
  lemma JoinWaitsBehindTwo(w: World, playerId: string, username: Option<string>, env: Environment, a: Entry, b: Entry)
    requires ValidWorld(w) && playerId != ""
    requires a in w.queue && b in w.queue && a.member != b.member
    requires a.member != playerId && b.member != playerId
    requires Before(a, Entry(playerId, env.joinedAt)) && Before(b, Entry(playerId, env.joinedAt))
    ensures JoinSpec(w, playerId, username, env).1 == Success(Waiting)
    ensures JoinSpec(w, playerId, username, env).0 == Enrolled(w, Player(playerId, username, env.joinedAt))
  {
    var current := Player(playerId, username, env.joinedAt);
    var e := Enrolled(w, current);
    EnrolledOnce(w, current);
    var c := Entry(playerId, env.joinedAt);
    assert a in e.queue && b in e.queue && c in e.queue;
    NoQueueJumping(e.queue, c, a, b);
    assert TryMatchSpec(e, current, env.checkedAt) == (e, None);
    var i :| 0 <= i < |e.queue| && e.queue[i] == a;
    var j :| 0 <= j < |e.queue| && e.queue[j] == b;
    assert i != j;
    assert |e.queue| != 1;
  }

  /** A store holding one queued player with its record, and any accepted event log. */
  function OneWaiting(a: Player, events: seq<Event>): World {
    World([Entry(a.id, a.joinedAt)], map[PlayerMetaKey(a.id) := PlayerJson(a)], events)
  }

  lemma OneWaitingValid(a: Player, events: seq<Event>)
    requires EventsAccepted(events)
    ensures ValidWorld(OneWaiting(a, events))
  {
    PlayerJsonValid(a);
  }

  /** A second player joining behind one waiting player leaves them both queued, in arrival order. */
  lemma EnrolledBehind(a: Player, events: seq<Event>, current: Player)
    requires EventsAccepted(events) && current.id != "" && a.id != current.id
    requires Before(Entry(a.id, a.joinedAt), Entry(current.id, current.joinedAt))
    ensures Enrolled(OneWaiting(a, events), current).queue == [Entry(a.id, a.joinedAt), Entry(current.id, current.joinedAt)]
    ensures MetaOf(Enrolled(OneWaiting(a, events), current).meta, a.id) == Some(PlayerJson(a))
    ensures MetaOf(Enrolled(OneWaiting(a, events), current).meta, current.id) == Some(PlayerJson(current))
  {
    var w := OneWaiting(a, events);
    var A := Entry(a.id, a.joinedAt);
    var C := Entry(current.id, current.joinedAt);
    UniqueIdsOne(current.id);
    var w1 := RemovePlayersSpec(w, [Some(current.id)]);
    assert w1 == EmitQueueSizeSpec(WithoutIds(w, {current.id}));
    MembersOf([A], current.id);
    RemoveAllAbsent([A], {current.id});
    assert w1.queue == [A];
    BeforeAsymmetric(A, C);
    assert ZAdd(w1.queue, current.id, current.joinedAt) == Insert([A], C) == [A, C];
    assert Enrolled(w, current).meta == w1.meta[PlayerMetaKey(current.id) := PlayerJson(current)];
    OneWaitingMeta(a, events, current.id);
  }

  /** Removing another player's key keeps the waiting player's record. */
  lemma OneWaitingMeta(a: Player, events: seq<Event>, other: string)
    requires other != "" && other != a.id
    ensures var w1 := RemovePlayersSpec(OneWaiting(a, events), [Some(other)]);
      && PlayerMetaKey(a.id) != PlayerMetaKey(other)
      && MetaOf(w1.meta, a.id) == Some(PlayerJson(a))
  {
    UniqueIdsOne(other);
    if PlayerMetaKey(a.id) == PlayerMetaKey(other) {
      PlayerMetaKeyInjective(a.id, other);
    }
    assert MetaKeys({other}) == {PlayerMetaKey(other)};
  }

  /**
   * A player joining behind one live waiting player is matched with it: the
   * waiting player's record first, the caller second, and the queue empties.
   */
  lemma JoinPairsWithWaitingPlayer(a: Player, events: seq<Event>, playerId: string, username: Option<string>, env: Environment)
    requires EventsAccepted(events) && a.id != "" && playerId != "" && a.id != playerId
    requires Before(Entry(a.id, a.joinedAt), Entry(playerId, env.joinedAt))
    requires env.checkedAt - a.joinedAt <= TTL_MS && env.checkedAt - env.joinedAt <= TTL_MS
    ensures var current := Player(playerId, username, env.joinedAt);
      var players := [PlayerJson(a), PlayerJson(current)];
      && JoinSpec(OneWaiting(a, events), playerId, username, env).1 == Success(Matched(env.roomUuid, players, false))
      && JoinSpec(OneWaiting(a, events), playerId, username, env).0.queue == []
  {
    var current := Player(playerId, username, env.joinedAt);
    var w := OneWaiting(a, events);
    var e := Enrolled(w, current);
    OneWaitingValid(a, events);
    EnrolledOnce(w, current);
    EnrolledBehind(a, events, current);
    OpponentCases(e.queue, playerId);
    StoredRecordReadsBack(a, env.checkedAt);
    StoredRecordReadsBack(current, env.checkedAt);
    TryMatchHeals(e, current, env.checkedAt);
  }

  /**
   * When the one waiting player's record has outlived its time to live, the
   * join heals the queue instead: the stale player and its record are
   * removed, and the caller, now alone, gets a mock match and leaves the queue.
   */
  lemma JoinHealsStaleOpponent(a: Player, events: seq<Event>, playerId: string, username: Option<string>, env: Environment)
    requires EventsAccepted(events) && a.id != "" && playerId != "" && a.id != playerId
    requires Before(Entry(a.id, a.joinedAt), Entry(playerId, env.joinedAt))
    requires env.checkedAt - a.joinedAt > TTL_MS
    ensures var current := Player(playerId, username, env.joinedAt);
      var mock := PickMockOpponent(playerId, env.mockDraw, env.mockAt);
      var after := JoinSpec(OneWaiting(a, events), playerId, username, env).0;
      && JoinSpec(OneWaiting(a, events), playerId, username, env).1
           == Success(Matched("mock-" + env.roomUuid, [PlayerJson(mock), PlayerJson(current)], true))
      && after.queue == []
      && PlayerMetaKey(a.id) !in after.meta
  {
    var current := Player(playerId, username, env.joinedAt);
    var w := OneWaiting(a, events);
    var e := Enrolled(w, current);
    OneWaitingValid(a, events);
    EnrolledOnce(w, current);
    EnrolledBehind(a, events, current);
    OpponentCases(e.queue, playerId);
    StoredRecordReadsBack(a, env.checkedAt);
    TryMatchHeals(e, current, env.checkedAt);
    var paired := TryMatchSpec(e, current, env.checkedAt);
    UniqueIdsOne(a.id);
    var C := Entry(playerId, env.joinedAt);
    assert paired.0.queue == [C] by {
      var r := RemoveAll(e.queue, {a.id});
      assert C in r;
      assert |r| <= 2;
      assert r[0] in e.queue && r[0].member != a.id;
    }
    UniqueIdsOne(playerId);
    RemovePlayersEffect(paired.0, [Some(playerId)]);
    assert PlayerMetaKey(a.id) in MetaKeys({a.id});
  }

  // ---------------------------------------------------------------------------
  // The mock roster

  /** Two ids whose third characters differ and are not upper-case letters differ ignoring case. */
  lemma LowerDiffers(a: string, b: string)
    requires |a| > 2 && |b| > 2 && a[2] != b[2]
    requires !('A' <= a[2] <= 'Z') && !('A' <= b[2] <= 'Z')
    ensures ToLower(a) != ToLower(b)
  {
    assert ToLower(a)[2] == a[2] && ToLower(b)[2] == b[2];
  }

  /** Filtering three profiles whose ids differ ignoring case leaves at least two. */
  lemma CandidatesOfThree(roster: seq<Profile>, x: string)
    requires |roster| == 3
    requires ToLower(roster[0].id) != ToLower(roster[1].id)
    requires ToLower(roster[1].id) != ToLower(roster[2].id)
    requires ToLower(roster[0].id) != ToLower(roster[2].id)
    ensures |MockCandidates(roster, x)| >= 2
  {
    var t1 := roster[1..];
    var t2 := t1[1..];
    assert t2[1..] == [] && t2[0] == roster[2] && t1[0] == roster[1];
    assert |MockCandidates(t2, x)| == (if ToLower(roster[2].id) != x then 1 else 0) + |MockCandidates([], x)|;
    assert |MockCandidates(t1, x)| == (if ToLower(roster[1].id) != x then 1 else 0) + |MockCandidates(t2, x)|;
  }

  /** The roster's ids differ even ignoring case, so excluding the caller leaves at least two candidates. */
  lemma RosterNeverExhausted(excludePlayerId: string)
    ensures |MockCandidates(MOCK_OPPONENT_PROFILES, ToLower(excludePlayerId))| >= 2
  {
    var r := MOCK_OPPONENT_PROFILES;
    LowerDiffers(r[0].id, r[1].id);
    LowerDiffers(r[1].id, r[2].id);
    LowerDiffers(r[0].id, r[2].id);
    CandidatesOfThree(r, ToLower(excludePlayerId));
  }

  /**
   * The mock opponent never shares the caller's id, ignoring case: the
   * random index always falls among the candidates, of which there are at
   * least two. Every candidate can be drawn, and the opponent is stamped
   * with the given time.
   */
  lemma MockOpponentDiffers(excludePlayerId: string, draw: nat, now: int)
    ensures var candidates := MockCandidates(MOCK_OPPONENT_PROFILES, ToLower(excludePlayerId));
      var opponent := PickMockOpponent(excludePlayerId, draw, now);
      && ToLower(opponent.id) != ToLower(excludePlayerId)
      && Profile(opponent.id, opponent.username.value) in candidates
      && Profile(opponent.id, opponent.username.value) in MOCK_OPPONENT_PROFILES
      && opponent.joinedAt == now
    ensures var candidates := MockCandidates(MOCK_OPPONENT_PROFILES, ToLower(excludePlayerId));
      forall i :: 0 <= i < |candidates| ==>
        PickMockOpponent(excludePlayerId, i, now) == Player(candidates[i].id, Some(candidates[i].username), now)
  {
    var candidates := MockCandidates(MOCK_OPPONENT_PROFILES, ToLower(excludePlayerId));
    RosterNeverExhausted(excludePlayerId);
    var index := RandomIndex(draw, |candidates|);
    assert candidates[index] in candidates;
  }
}
