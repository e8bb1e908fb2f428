/**
 * The typed event channel of the realtime layer: JSON values and the zod
 * schemas that the `matchmaking.queueUpdate` and `matchmaking.matchFound`
 * events must satisfy, written as validity predicates.
 */
module Realtime {

  /** A JSON value, as it is published on the channel or read back from the store. */
  datatype Json =
    | JNull
    | JBool(b: bool)
    | JNumber(n: real)
    | JString(s: string)
    | JArray(items: seq<Json>)
    | JObject(fields: map<string, Json>)

  const QUEUE_UPDATE_EVENT := "matchmaking.queueUpdate"
  const MATCH_FOUND_EVENT := "matchmaking.matchFound"

  /** `z.number().int()`: a number without a fractional part. */
  predicate IsInteger(n: real) {
    n.Floor as real == n
  }

  /** `z.object` accepts an object that has the key with a value of the right shape (extra keys are stripped). */
  predicate FieldIs(j: Json, key: string, shape: Json -> bool) {
    j.JObject? && key in j.fields && shape(j.fields[key])
  }

  predicate IsStringValue(j: Json) { j.JString? }

  predicate IsNullableString(j: Json) { j.JString? || j.JNull? }

  predicate IsNumberValue(j: Json) { j.JNumber? }

  predicate IsNonNegativeInteger(j: Json) { j.JNumber? && IsInteger(j.n) && j.n >= 0.0 }

  /** `playerSchema`: an object with a string `id`, a string-or-null `username` and a numeric `joinedAt`. */
  predicate PlayerSchema(j: Json) {
    && FieldIs(j, "id", IsStringValue)
    && FieldIs(j, "username", IsNullableString)
    && FieldIs(j, "joinedAt", IsNumberValue)
  }

  /** The `players` array of `matchFound`: exactly two elements, each a valid player. */
  predicate IsPlayerPair(j: Json) {
    j.JArray? && |j.items| == 2 && forall i :: 0 <= i < |j.items| ==> PlayerSchema(j.items[i])
  }

  /** `queueUpdate`: a non-negative integer `total`. */
  predicate QueueUpdateSchema(j: Json) {
    FieldIs(j, "total", IsNonNegativeInteger)
  }

  /** `matchFound`: a string `roomId` and a `players` array of exactly two valid players. */
  predicate MatchFoundSchema(j: Json) {
    FieldIs(j, "roomId", IsStringValue) && FieldIs(j, "players", IsPlayerPair)
  }

  /** Whether the channel's schema accepts `payload` for the event called `name`. */
  predicate Accepts(name: string, payload: Json) {
    || (name == QUEUE_UPDATE_EVENT && QueueUpdateSchema(payload))
    || (name == MATCH_FOUND_EVENT && MatchFoundSchema(payload))
  }

  /** `queueUpdate` takes exactly the whole, non-negative totals, and nothing but a number. */
  lemma QueueUpdateTotals(n: real, other: Json)
    requires !other.JNumber?
    ensures Accepts(QUEUE_UPDATE_EVENT, JObject(map["total" := JNumber(n)])) <==> n >= 0.0 && n.Floor as real == n
    ensures !Accepts(QUEUE_UPDATE_EVENT, JObject(map["total" := JNumber(1.5)]))
    ensures !Accepts(QUEUE_UPDATE_EVENT, JObject(map["total" := other]))
    ensures !Accepts(QUEUE_UPDATE_EVENT, JObject(map[]))
  {
    assert (1.5).Floor == 1;
  }

  /** Extra keys on a player record are stripped, but `username` must be present, if only as `null`. */
  lemma PlayerSchemaKeys(fields: map<string, Json>, k: string, v: Json)
    requires PlayerSchema(JObject(fields))
    requires k != "id" && k != "username" && k != "joinedAt"
    ensures PlayerSchema(JObject(fields[k := v]))
    ensures !PlayerSchema(JObject(fields - {"username"}))
  {
  }
}
