/**
 * The matchmaking queue coordinator: enrolment of a player into the shared
 * sorted-set queue, first-come-first-served pairing of the two
 * longest-waiting players, self-healing of stale entries, the mock-bot
 * fallback and the events published on the realtime channel.
 *
 * The shared store and the event channel are a `World` value: the sorted set
 * under the queue key, the metadata keys, and the log of published events.
 * Each step of the coordinator is a pure function on `World` (the
 * specification) and a method of class `Matchmaker` that performs it step by
 * step and is proved equal to that function.
 */
module Matchmaking {
  import opened Wrappers
  import opened SortedSet
  import opened Realtime

  const QUEUE_KEY := "cza:matchmaking:queue"
  const PLAYER_KEY_PREFIX := "cza:matchmaking:player:"
  const TTL_SECONDS := 60 * 5
  const TTL_MS := TTL_SECONDS * 1000

  /** A profile of the mock-opponent roster. */
  datatype Profile = Profile(id: string, username: string)

  const MOCK_OPPONENT_PROFILES: seq<Profile> := [
    Profile("0x4b3d9d1f0fcb53cd86aed9ddf3aabc7f7be47c39", "Neon Marshal"),
    Profile("0x9e12cb128c0a732b0feb1a7f0a78eabc1f8beef0", "Shadow Raptor"),
    Profile("0x0f6b2f20317c2f782fe23f5f93e15b04f28a27b3", "Plasma Nomad")
  ]

  /** A queued player: its id, optional display name and enrolment time in milliseconds. */
  datatype Player = Player(id: string, username: Option<string>, joinedAt: int)

  /** The outcome of `joinMatchmaking`; `isMock` is false where the source leaves it out. */
  datatype MatchmakingResult =
    | Waiting
    | Matched(roomId: string, players: seq<Json>, isMock: bool)

  /** The error `joinMatchmaking` throws for a missing player id. */
  datatype MatchmakingError = PlayerIdRequired

  /**
   * What the coordinator reads from outside: the clock at enrolment, while
   * checking the stored records and when building the mock opponent; the
   * fresh room id; and the random draw that picks the mock opponent.
   */
  datatype Environment = Environment(joinedAt: int, checkedAt: int, mockAt: int, roomUuid: string, mockDraw: nat)

  /** One published event: its name on the channel and its payload. */
  datatype Event = Event(name: string, payload: Json)

  /** One command of a store pipeline. */
  datatype Command =
    | ZAddCmd(score: int, member: string)
    | ZRemCmd(member: string)
    | SetCmd(key: string, value: Json)
    | DelCmd(key: string)

  /** The shared store (queue and metadata keys) and the log of published events. */
  datatype World = World(queue: seq<Entry>, meta: map<string, Json>, events: seq<Event>)

  // ---------------------------------------------------------------------------
  // Player records

  /** The record `storePlayer` writes (`JSON.stringify(player)`), as the store hands it back. */
  function PlayerJson(p: Player): Json {
    JObject(map[
      "id" := JString(p.id),
      "username" := (if p.username.Some? then JString(p.username.value) else JNull),
      "joinedAt" := JNumber(p.joinedAt as real)])
  }

  lemma PlayerJsonValid(p: Player)
    ensures PlayerSchema(PlayerJson(p))
  {
  }

  function PlayerMetaKey(playerId: string): string {
    PLAYER_KEY_PREFIX + playerId
  }

  /** Distinct players have distinct metadata keys. */
  lemma PlayerMetaKeyInjective(a: string, b: string)
    requires PlayerMetaKey(a) == PlayerMetaKey(b)
    ensures a == b
  {
    assert a == PlayerMetaKey(a)[|PLAYER_KEY_PREFIX|..];
    assert b == PlayerMetaKey(b)[|PLAYER_KEY_PREFIX|..];
  }

  /** JavaScript falsiness of a stored value. */
  predicate Falsy(j: Json) {
    j == JNull || j == JBool(false) || j == JNumber(0.0) || j == JString("")
  }

  /** `parsed?.joinedAt` when it is a number; only objects have fields. */
  function JoinedAt(j: Json): Option<real> {
    if j.JObject? && "joinedAt" in j.fields && j.fields["joinedAt"].JNumber? then Some(j.fields["joinedAt"].n)
    else None
  }

  /**
   * `parsePlayerMeta`: the stored record, or `None` when it is absent or falsy,
   * has no numeric `joinedAt`, or is older than the TTL at time `now`.
   */
  function ParsePlayerMeta(value: Option<Json>, now: int): Option<Json> {
    if value.None? || Falsy(value.value) then None
    else match JoinedAt(value.value)
      case None => None
      case Some(t) => if now as real - t > TTL_MS as real then None else value
  }

  /** The three cases in which a record is treated as absent; otherwise it is returned unchanged. */
  lemma ParsePlayerMetaCases(value: Option<Json>, now: int)
    ensures ParsePlayerMeta(value, now).None? <==>
      || value.None?
      || JoinedAt(value.value).None?
      || now as real - JoinedAt(value.value).value > TTL_MS as real
    ensures ParsePlayerMeta(value, now).Some? ==> ParsePlayerMeta(value, now) == value
  {
  }

  /** A record written by `storePlayer` reads back unchanged while its age is at most the TTL, and as absent after. */
  lemma StoredRecordReadsBack(p: Player, now: int)
    ensures ParsePlayerMeta(Some(PlayerJson(p)), now) ==
      if now - p.joinedAt <= TTL_MS then Some(PlayerJson(p)) else None
  {
    assert JoinedAt(PlayerJson(p)) == Some(p.joinedAt as real);
  }

  // ---------------------------------------------------------------------------
  // Id lists

  /** `playerIds.filter(Boolean)`: the ids that are present and non-empty, in order. */
  function Truthy(ids: seq<Option<string>>): (r: seq<string>)
    ensures forall x :: x in r <==> Some(x) in ids && x != ""
  {
    if ids == [] then []
    else (if ids[0].Some? && ids[0].value != "" then [ids[0].value] else []) + Truthy(ids[1..])
  }

  /** `[...new Set(s)]`: each element once, at its first occurrence. */
  function Dedupe(s: seq<string>): (r: seq<string>)
    ensures forall i, j :: 0 <= i < j < |r| ==> r[i] != r[j]
    ensures forall x :: x in r <==> x in s
  {
    if s == [] then []
    else
      var d := Dedupe(s[..|s| - 1]);
      assert forall x :: x in s <==> x in s[..|s| - 1] || x == s[|s| - 1];
      if s[|s| - 1] in d then d else d + [s[|s| - 1]]
  }

  /** The `uniqueIds` of `removePlayersFromQueue`. */
  function UniqueIds(ids: seq<Option<string>>): seq<string> {
    Dedupe(Truthy(ids))
  }

  /** The unique ids are distinct, non-empty, and exactly the ids that were present and non-empty. */
  lemma UniqueIdsSpec(ids: seq<Option<string>>)
    ensures forall i, j :: 0 <= i < j < |UniqueIds(ids)| ==> UniqueIds(ids)[i] != UniqueIds(ids)[j]
    ensures forall x :: x in UniqueIds(ids) <==> Some(x) in ids && x != ""
  {
  }

  function Elements(s: seq<string>): set<string> {
    set x | x in s
  }

  function MetaKeys(ids: set<string>): set<string> {
    set id | id in ids :: PlayerMetaKey(id)
  }

  // ---------------------------------------------------------------------------
  // Events

  /** The `queueUpdate` event with payload `{ total }`. */
  function QueueUpdate(total: int): Event {
    Event(QUEUE_UPDATE_EVENT, JObject(map["total" := JNumber(total as real)]))
  }

  /** The `matchFound` event with payload `{ roomId, players }`. */
  function MatchFound(roomId: string, players: seq<Json>): Event {
    Event(MATCH_FOUND_EVENT, JObject(map["roomId" := JString(roomId), "players" := JArray(players)]))
  }

  /** The schema accepts a queue update exactly when the total is non-negative. */
  lemma QueueUpdateAccepted(total: int)
    ensures Accepts(QueueUpdate(total).name, QueueUpdate(total).payload) <==> total >= 0
  {
    assert (total as real).Floor == total;
  }

  /** The schema accepts a match announcement exactly when it names two valid players. */
  lemma MatchFoundAccepted(roomId: string, players: seq<Json>)
    ensures Accepts(MatchFound(roomId, players).name, MatchFound(roomId, players).payload) <==>
      |players| == 2 && PlayerSchema(players[0]) && PlayerSchema(players[1])
  {
    var payload := MatchFound(roomId, players).payload;
    assert payload.fields["players"] == JArray(players);
    if |players| == 2 && PlayerSchema(players[0]) && PlayerSchema(players[1]) {
      assert forall i :: 0 <= i < |players| ==> PlayerSchema(players[i]);
    }
  }

  // ---------------------------------------------------------------------------
  // The store

  function Apply(w: World, c: Command): World {
    match c
    case ZAddCmd(score, member) => w.(queue := ZAdd(w.queue, member, score))
    case ZRemCmd(member) => w.(queue := RemoveAll(w.queue, {member}))
    case SetCmd(key, value) => w.(meta := w.meta[key := value])
    case DelCmd(key) => w.(meta := w.meta - {key})
  }

  /** Executing a pipeline: its commands in order; it publishes nothing. */
  function ApplyAll(w: World, cs: seq<Command>): (r: World)
    ensures r.events == w.events
    decreases |cs|
  {
    if cs == [] then w else Apply(ApplyAll(w, cs[..|cs| - 1]), cs[|cs| - 1])
  }

  lemma ApplyAllSnoc(w: World, cs: seq<Command>, c: Command)
    ensures ApplyAll(w, cs + [c]) == Apply(ApplyAll(w, cs), c)
  {
    assert (cs + [c])[..|cs|] == cs;
  }

  /** `redis.get` of the player's metadata key. */
  function MetaOf(meta: map<string, Json>, playerId: string): Option<Json> {
    if PlayerMetaKey(playerId) in meta then Some(meta[PlayerMetaKey(playerId)]) else None
  }

  /** `redis.mget(...keys)`: one value or absence per key, in order. */
  function MGet(meta: map<string, Json>, keys: seq<string>): (r: seq<Option<Json>>)
  {
    seq(|keys|, i requires 0 <= i < |keys| => if keys[i] in meta then Some(meta[keys[i]]) else None)
  }

  /** What `fetchPlayerMetas` returns: each requested id mapped to its parsed record. */
  function PlayerMetas(meta: map<string, Json>, ids: seq<string>, now: int): map<string, Option<Json>> {
    map id | id in ids :: ParsePlayerMeta(MetaOf(meta, id), now)
  }

  /** Every record that has a numeric `joinedAt` (so `parsePlayerMeta` may return it) satisfies the player schema. */
  predicate MetaSound(meta: map<string, Json>) {
    forall k :: k in meta && JoinedAt(meta[k]).Some? ==> PlayerSchema(meta[k])
  }

  predicate EventsAccepted(events: seq<Event>) {
    forall i :: 0 <= i < |events| ==> Accepts(events[i].name, events[i].payload)
  }

  /** The invariant the coordinator keeps: a well-formed sorted set, sound records, schema-valid events. */
  predicate ValidWorld(w: World) {
    IsSortedSet(w.queue) && MetaSound(w.meta) && EventsAccepted(w.events)
  }

  // ---------------------------------------------------------------------------
  // The coordinator's steps, as functions on the world

  /** `emitQueueSize`: publish the current cardinality of the queue. */
  function EmitQueueSizeSpec(w: World): World {
    w.(events := w.events + [QueueUpdate(|w.queue|)])
  }

  /** `storePlayer`: ZADD the player by `joinedAt`, write its record, publish the size. */
  function StorePlayerSpec(w: World, p: Player): World {
    EmitQueueSizeSpec(w.(queue := ZAdd(w.queue, p.id, p.joinedAt), meta := w.meta[PlayerMetaKey(p.id) := PlayerJson(p)]))
  }

  /** `removePlayersFromQueue`: nothing at all without a usable id; otherwise ZREM and DEL each, then publish the size. */
  function RemovePlayersSpec(w: World, ids: seq<Option<string>>): World {
    var unique := UniqueIds(ids);
    if unique == [] then w
    else
      EmitQueueSizeSpec(WithoutIds(w, Elements(unique)))
  }

  /** The store after ZREM and DEL of every id in `ids`. */
  function WithoutIds(w: World, ids: set<string>): World {
    w.(queue := RemoveAll(w.queue, ids), meta := w.meta - MetaKeys(ids))
  }

  /** The pairing decision of `tryMatch`: the other of the two lowest-ranked members, when the caller is one of them. */
  function Opponent(q: seq<Entry>, selfId: string): Option<string> {
    var leaders := Range(q, 0, 1);
    if |leaders| < 2 then None
    else if selfId !in leaders then None
    else
      var opponentId := if leaders[0] == selfId then leaders[1] else leaders[0];
      if opponentId == "" then None else Some(opponentId)
  }

  /** `tryMatch`: pair, or heal by removing whichever stale record it met first. */
  function TryMatchSpec(w: World, current: Player, now: int): (World, Option<Json>) {
    match Opponent(w.queue, current.id)
    case None => (w, None)
    case Some(opponentId) =>
      var metas := PlayerMetas(w.meta, [current.id, opponentId], now);
      var opponent := metas[opponentId];
      var self := metas[current.id];
      if opponent.None? then (RemovePlayersSpec(w, [Some(opponentId)]), None)
      else if self.None? then (RemovePlayersSpec(w, [Some(current.id)]), None)
      else (RemovePlayersSpec(w, [Some(current.id), Some(opponentId)]), opponent)
  }

  const UPPER_LETTERS: string := "ABCDEFGHIJKLMNOPQRSTUVWXYZ"
  const LOWER_LETTERS: string := "abcdefghijklmnopqrstuvwxyz"

  /** The two alphabets are the consecutive code points from 'A' and from 'a'. */
  lemma Alphabets()
    ensures |UPPER_LETTERS| == 26 && |LOWER_LETTERS| == 26
    ensures forall k :: 0 <= k < 26 ==> UPPER_LETTERS[k] as int == 'A' as int + k
    ensures forall k :: 0 <= k < 26 ==> LOWER_LETTERS[k] as int == 'a' as int + k
  {
  }

  function LowerChar(c: char): char {
    if 'A' <= c <= 'Z' then (c as int + 32) as char else c
  }

  /** ASCII `toLowerCase`: each capital becomes the small letter at the same place in the alphabet. */
  function ToLower(s: string): (r: string)
    ensures |r| == |s|
    ensures forall i :: 0 <= i < |r| ==> !('A' <= r[i] <= 'Z')
    ensures forall i :: 0 <= i < |s| && !('A' <= s[i] <= 'Z') ==> r[i] == s[i]
    ensures forall i, k :: 0 <= i < |s| && 0 <= k < |UPPER_LETTERS| && s[i] == UPPER_LETTERS[k] ==> r[i] == LOWER_LETTERS[k]
  {
    Alphabets();
    seq(|s|, i requires 0 <= i < |s| => LowerChar(s[i]))
  }

  lemma LetterAt(k: int)
    requires 0 <= k < 26
    ensures UPPER_LETTERS[k] as int == 'A' as int + k && LOWER_LETTERS[k] as int == 'a' as int + k
  {
    Alphabets();
  }

  /** Two characters that are equal, or the capital and the small form of one letter. */
  predicate SameLetterIgnoringCase(x: char, y: char) {
    x == y ||
    exists k :: 0 <= k < |UPPER_LETTERS| &&
      ((x == UPPER_LETTERS[k] && y == LOWER_LETTERS[k]) || (x == LOWER_LETTERS[k] && y == UPPER_LETTERS[k]))
  }

  lemma LetterLowers(k: int)
    requires 0 <= k < 26
    ensures 'A' <= UPPER_LETTERS[k] <= 'Z' && !('A' <= LOWER_LETTERS[k] <= 'Z')
    ensures LowerChar(UPPER_LETTERS[k]) == LOWER_LETTERS[k] && LowerChar(LOWER_LETTERS[k]) == LOWER_LETTERS[k]
  {
    LetterAt(k);
  }

  /** A capital and a different character that lower-case alike are the two forms of one letter. */
  lemma CapitalMeets(u: char, l: char)
    requires 'A' <= u <= 'Z' && u != l && LowerChar(u) == LowerChar(l)
    ensures UPPER_LETTERS[u as int - 'A' as int] == u && LOWER_LETTERS[u as int - 'A' as int] == l
  {
    LetterAt(u as int - 'A' as int);
    assert LowerChar(u) as int == u as int + 32;
    assert 'A' <= l <= 'Z' ==> LowerChar(l) as int == l as int + 32;
    assert LowerChar(l) == l;
  }

  lemma LowerCharIgnoresCase(x: char, y: char)
    ensures LowerChar(x) == LowerChar(y) <==> SameLetterIgnoringCase(x, y)
  {
    if SameLetterIgnoringCase(x, y) && x != y {
      var k :| 0 <= k < |UPPER_LETTERS| &&
        ((x == UPPER_LETTERS[k] && y == LOWER_LETTERS[k]) || (x == LOWER_LETTERS[k] && y == UPPER_LETTERS[k]));
      LetterLowers(k);
    }
    if LowerChar(x) == LowerChar(y) && x != y {
      if 'A' <= x <= 'Z' {
        CapitalMeets(x, y);
      } else {
        assert 'A' <= y <= 'Z';
        CapitalMeets(y, x);
      }
    }
  }

  /** Lower-cased ids are equal exactly when the ids agree letter by letter up to ASCII case. */
  lemma ToLowerIgnoresCase(a: string, b: string)
    ensures ToLower(a) == ToLower(b) <==>
      |a| == |b| && forall i :: 0 <= i < |a| ==> SameLetterIgnoringCase(a[i], b[i])
  {
    if |a| == |b| {
      forall i | 0 <= i < |a|
        ensures ToLower(a)[i] == ToLower(b)[i] <==> SameLetterIgnoringCase(a[i], b[i])
      {
        LowerCharIgnoresCase(a[i], b[i]);
      }
      if forall i :: 0 <= i < |a| ==> SameLetterIgnoringCase(a[i], b[i]) {
        assert forall i :: 0 <= i < |a| ==> ToLower(a)[i] == ToLower(b)[i];
      }
    }
  }

  /** The roster filter of `pickMockOpponent`: the profiles whose id differs from the excluded one, ignoring case. */
  function MockCandidates(roster: seq<Profile>, normalizedExclude: string): (r: seq<Profile>)
    ensures forall p :: p in r <==> p in roster && ToLower(p.id) != normalizedExclude
  {
    if roster == [] then []
    else
      (if ToLower(roster[0].id) != normalizedExclude then [roster[0]] else [])
      + MockCandidates(roster[1..], normalizedExclude)
  }

  /**
   * The index `Math.floor(Math.random() * count)` yields, for a random draw
   * given as a natural number: always below `count` when there is a
   * candidate, and 0 otherwise.
   */
  function RandomIndex(draw: nat, count: nat): (r: nat)
    ensures count > 0 ==> r < count
    ensures count == 0 ==> r == 0
    ensures draw < count ==> r == draw
  {
    if count == 0 then 0 else draw % count
  }

  /** `pickMockOpponent`: the candidate at the random index, or the first profile when there is none there. */
  function PickMockOpponent(excludePlayerId: string, draw: nat, now: int): Player {
    var candidates := MockCandidates(MOCK_OPPONENT_PROFILES, ToLower(excludePlayerId));
    var index := RandomIndex(draw, |candidates|);
    var selection := if index < |candidates| then candidates[index] else MOCK_OPPONENT_PROFILES[0];
    Player(selection.id, Some(selection.username), now)
  }

  /** `createMockMatch`: a `mock-` room with the mock opponent first and the caller second. */
  function CreateMockMatch(current: Player, env: Environment): (string, seq<Json>) {
    ("mock-" + env.roomUuid, [PlayerJson(PickMockOpponent(current.id, env.mockDraw, env.mockAt)), PlayerJson(current)])
  }

  /** The world after the caller's stale entry is removed and the caller is stored again. */
  function Enrolled(w: World, current: Player): World {
    StorePlayerSpec(RemovePlayersSpec(w, [Some(current.id)]), current)
  }

  /** `joinMatchmaking`, start to finish. */
  function JoinSpec(w: World, playerId: string, username: Option<string>, env: Environment)
    : (World, Result<MatchmakingResult, MatchmakingError>)
  {
    if playerId == "" then (w, Failure(PlayerIdRequired))
    else
      var current := Player(playerId, username, env.joinedAt);
      var paired := TryMatchSpec(Enrolled(w, current), current, env.checkedAt);
      var w3 := paired.0;
      if paired.1.None? then
        if |w3.queue| == 1 then
          var mock := CreateMockMatch(current, env);
          (RemovePlayersSpec(w3, [Some(playerId)]), Success(Matched(mock.0, mock.1, true)))
        else (w3, Success(Waiting))
      else
        var players := [paired.1.value, PlayerJson(current)];
        (w3.(events := w3.events + [MatchFound(env.roomUuid, players)]), Success(Matched(env.roomUuid, players, false)))
  }

  // ---------------------------------------------------------------------------
  // The coordinator, step by step

  class Matchmaker {
    var queue: seq<Entry>
    var meta: map<string, Json>
    var events: seq<Event>

    function State(): World
      reads this
    {
      World(queue, meta, events)
    }

    predicate Valid()
      reads this
    {
      ValidWorld(State())
    }

    /** A coordinator over a store that already holds a queue and records, before any event. */
    constructor (queue0: seq<Entry>, meta0: map<string, Json>)
      requires IsSortedSet(queue0) && MetaSound(meta0)
      ensures Valid() && State() == World(queue0, meta0, [])
    {
      queue, meta, events := queue0, meta0, [];
    }

    /** `realtime.emit`: the typed channel takes only payloads its schema accepts. */
    method Emit(name: string, payload: Json)
      requires Valid() && Accepts(name, payload)
      modifies this
      ensures Valid() && State() == old(State()).(events := old(events) + [Event(name, payload)])
    {
      events := events + [Event(name, payload)];
    }

    /** `pipeline.exec()`. */
    method Exec(pipeline: seq<Command>)
      modifies this
      ensures State() == ApplyAll(old(State()), pipeline)
    {
      var after := ApplyAll(State(), pipeline);
      queue, meta := after.queue, after.meta;
    }

    method EmitQueueSize()
      requires Valid()
      modifies this
      ensures Valid() && State() == EmitQueueSizeSpec(old(State()))
    {
      var total := |queue|;
      QueueUpdateAccepted(total);
      Emit(QUEUE_UPDATE_EVENT, QueueUpdate(total).payload);
    }

    method StorePlayer(player: Player)
      requires Valid()
      modifies this
      ensures Valid() && State() == StorePlayerSpec(old(State()), player)
    {
      var pipeline: seq<Command> := [];
      pipeline := pipeline + [ZAddCmd(player.joinedAt, player.id)];
      pipeline := pipeline + [SetCmd(PlayerMetaKey(player.id), PlayerJson(player))];
      StorePipeline(State(), player);
      Exec(pipeline);
      EmitQueueSize();
    }

    method RemovePlayersFromQueue(playerIds: seq<Option<string>>)
      requires Valid()
      modifies this
      ensures Valid() && State() == RemovePlayersSpec(old(State()), playerIds)
    {
      var uniqueIds := UniqueIds(playerIds);
      if |uniqueIds| == 0 {
        return;
      }
      ghost var w := State();
      var pipeline: seq<Command> := [];
      RemovalStart(w, uniqueIds);
      for i := 0 to |uniqueIds|
        invariant State() == w
        invariant ApplyAll(w, pipeline) == WithoutIds(w, Elements(uniqueIds[..i]))
      {
        var playerId := uniqueIds[i];
        ghost var before := pipeline;
        pipeline := pipeline + [ZRemCmd(playerId)];
        pipeline := pipeline + [DelCmd(PlayerMetaKey(playerId))];
        RemovalStep(w, uniqueIds, i, before);
      }
      RemovalDone(w, uniqueIds);
      Exec(pipeline);
      EmitQueueSize();
    }

    /** `fetchPlayerMetas`: reads the records of the given players and parses each. */
    method FetchPlayerMetas(playerIds: seq<string>, now: int) returns (entries: map<string, Option<Json>>)
      ensures entries.Keys == Elements(playerIds)
      ensures forall id :: id in entries ==> entries[id] == ParsePlayerMeta(MetaOf(meta, id), now)
    {
      if |playerIds| == 0 {
        return map[];
      }
      var keys := seq(|playerIds|, i requires 0 <= i < |playerIds| => PlayerMetaKey(playerIds[i]));
      var serialized := MGet(meta, keys);
      entries := map[];
      for index := 0 to |serialized|
        invariant entries.Keys == Elements(playerIds[..index])
        invariant forall id :: id in entries ==> entries[id] == ParsePlayerMeta(MetaOf(meta, id), now)
      {
        var playerId := playerIds[index];
        assert serialized[index] == MetaOf(meta, playerId);
        assert Elements(playerIds[..index + 1]) == Elements(playerIds[..index]) + {playerId} by {
          assert playerIds[..index + 1] == playerIds[..index] + [playerId];
        }
        entries := entries[playerId := ParsePlayerMeta(serialized[index], now)];
      }
      assert playerIds[..|playerIds|] == playerIds;
    }

    method TryMatch(currentPlayer: Player, now: int) returns (opponent: Option<Json>)
      requires Valid()
      modifies this
      ensures Valid() && (State(), opponent) == TryMatchSpec(old(State()), currentPlayer, now)
    {
      var leaders := Range(queue, 0, 1);
      if |leaders| < 2 {
        return None;
      }
      if currentPlayer.id !in leaders {
        return None;
      }
      var opponentId := if leaders[0] == currentPlayer.id then leaders[1] else leaders[0];
      if opponentId == "" {
        return None;
      }
      var metas := FetchPlayerMetas([currentPlayer.id, opponentId], now);
      assert Elements([currentPlayer.id, opponentId]) == {currentPlayer.id, opponentId};
      assert metas == PlayerMetas(meta, [currentPlayer.id, opponentId], now);
      var opponentMeta := metas[opponentId];
      var self := metas[currentPlayer.id];
      if opponentMeta.None? {
        RemovePlayersFromQueue([Some(opponentId)]);
        return None;
      }
      if self.None? {
        RemovePlayersFromQueue([Some(currentPlayer.id)]);
        return None;
      }
      RemovePlayersFromQueue([Some(currentPlayer.id), Some(opponentId)]);
      return opponentMeta;
    }

    method JoinMatchmaking(playerId: string, username: Option<string>, env: Environment)
      returns (r: Result<MatchmakingResult, MatchmakingError>)
      requires Valid()
      modifies this
      ensures Valid() && (State(), r) == JoinSpec(old(State()), playerId, username, env)
    {
      if playerId == "" {
        return Failure(PlayerIdRequired);
      }
      RemovePlayersFromQueue([Some(playerId)]);
      var currentPlayer := Player(playerId, username, env.joinedAt);
      StorePlayer(currentPlayer);
      ghost var enrolled := State();
      var opponent := TryMatch(currentPlayer, env.checkedAt);
      if opponent.None? {
        var queueSize := |queue|;
        if queueSize == 1 {
          RemovePlayersFromQueue([Some(currentPlayer.id)]);
          var mockMatch := CreateMockMatch(currentPlayer, env);
          return Success(Matched(mockMatch.0, mockMatch.1, true));
        }
        return Success(Waiting);
      }
      var players := [opponent.value, PlayerJson(currentPlayer)];
      var roomId := env.roomUuid;
      TryMatchOpponentSound(enrolled, currentPlayer, env.checkedAt);
      PlayerJsonValid(currentPlayer);
      MatchFoundAccepted(roomId, players);
      Emit(MATCH_FOUND_EVENT, MatchFound(roomId, players).payload);
      return Success(Matched(roomId, players, false));
    }
  }

  /** The store pipeline of `storePlayer` performs the ZADD and the SET, and keeps the invariant. */
  lemma StorePipeline(w: World, p: Player)
    requires ValidWorld(w)
    ensures ApplyAll(w, [ZAddCmd(p.joinedAt, p.id), SetCmd(PlayerMetaKey(p.id), PlayerJson(p))])
      == w.(queue := ZAdd(w.queue, p.id, p.joinedAt), meta := w.meta[PlayerMetaKey(p.id) := PlayerJson(p)])
    ensures ValidWorld(w.(queue := ZAdd(w.queue, p.id, p.joinedAt), meta := w.meta[PlayerMetaKey(p.id) := PlayerJson(p)]))
  {
    ApplyAllSnoc(w, [], ZAddCmd(p.joinedAt, p.id));
    ApplyAllSnoc(w, [ZAddCmd(p.joinedAt, p.id)], SetCmd(PlayerMetaKey(p.id), PlayerJson(p)));
    assert [ZAddCmd(p.joinedAt, p.id)] + [SetCmd(PlayerMetaKey(p.id), PlayerJson(p))]
      == [ZAddCmd(p.joinedAt, p.id), SetCmd(PlayerMetaKey(p.id), PlayerJson(p))];
    ZAddSorted(w.queue, p.id, p.joinedAt);
    PlayerJsonValid(p);
  }

  /** Before the removal loop the pipeline is empty and removes nothing. */
  lemma RemovalStart(w: World, ids: seq<string>)
    ensures ApplyAll(w, []) == WithoutIds(w, Elements(ids[..0]))
  {
    assert Elements(ids[..0]) == {};
    RemoveAllAbsent(w.queue, {});
    assert w.meta - MetaKeys({}) == w.meta;
  }

  /** One more iteration of the removal loop removes one more member and one more key. */
  lemma RemovalStep(w: World, ids: seq<string>, i: nat, pipeline: seq<Command>)
    requires i < |ids|
    requires ApplyAll(w, pipeline) == WithoutIds(w, Elements(ids[..i]))
    ensures ApplyAll(w, pipeline + [ZRemCmd(ids[i])] + [DelCmd(PlayerMetaKey(ids[i]))])
      == WithoutIds(w, Elements(ids[..i + 1]))
  {
    ApplyAllSnoc(w, pipeline, ZRemCmd(ids[i]));
    ApplyAllSnoc(w, pipeline + [ZRemCmd(ids[i])], DelCmd(PlayerMetaKey(ids[i])));
    assert ids[..i + 1] == ids[..i] + [ids[i]];
    assert Elements(ids[..i + 1]) == Elements(ids[..i]) + {ids[i]};
    RemoveAllTwice(w.queue, Elements(ids[..i]), {ids[i]});
    assert MetaKeys(Elements(ids[..i + 1])) == MetaKeys(Elements(ids[..i])) + {PlayerMetaKey(ids[i])};
  }

  /** After the removal loop the whole list is removed, and the invariant still holds. */
  lemma RemovalDone(w: World, ids: seq<string>)
    requires ValidWorld(w)
    ensures ids[..|ids|] == ids
    ensures ValidWorld(WithoutIds(w, Elements(ids)))
  {
    assert ids[..|ids|] == ids;
    RemoveAllSorted(w.queue, Elements(ids));
  }

  /** A record `tryMatch` returns as the opponent satisfies the player schema. */
  lemma TryMatchOpponentSound(w: World, current: Player, now: int)
    requires MetaSound(w.meta)
    ensures TryMatchSpec(w, current, now).1.Some? ==> PlayerSchema(TryMatchSpec(w, current, now).1.value)
  {
  }
}
