# aezakmi core in Dafny

A model of the logic behind aezakmi, a browser card game with wallet sign-in.
The model covers six parts:

- **Matchmaking queue** (`matchmaking.dfy`, `matchmaking_facts.dfy`, `sorted_set.dfy`). `joinMatchmaking` works in five steps:
  1. It removes any earlier entry for the caller.
  2. It enrols the caller in a Redis sorted set scored by `joinedAt`, and writes a metadata record for the caller.
  3. It tries to pair the caller with the other of the two lowest-ranked members.
  4. It heals stale entries.
  5. It answers `waiting`, a real match, or a match against a mock bot.
- **Event schemas** (`realtime.dfy`). The zod schemas of the `matchmaking.queueUpdate` and `matchmaking.matchFound` events are validity predicates over JSON values.
- **Card battle** (`card_game.dfy`). This covers the cowboy/zombie/alien cycle, the round resolver, final-winner selection, the round counter, the hand filter and the countdown. The screen's state is one record. Each React effect, timer callback and handler is one transition, and class `Battle` carries them out step by step.
- **Session participants** (`yellow.dfy`). Both clients order the participant pair the same way, smaller address first. Events can only be sent once the session is active.
- **Display identity** (`wallet.dfy`). This is the fallback chain for the username and the formatted address.
- **Address shortening** (`address_format.dfy`). This is `beautifyAddress` with the `substr` of section B.2.2.1 of ECMA-262.

The shared store and the event channel form a `World` value: the queue, the metadata keys and the log of published events. Each coordinator step exists twice:
- a pure function on `World`;
- a method of class `Matchmaking.Matchmaker` that performs the step one store command at a time, proved equal to that function.

The properties are lemmas about the functions. The clock, the fresh room id and the random draw that picks the mock opponent come from an `Environment` parameter.

Behaviours worth knowing:
- **Equal scores.** Equal scores rank by member string, as Redis orders them, not by insertion order.
- **Lone caller.** A caller left alone in the queue always gets a mock match and leaves the queue. It never waits alone. So re-enrolling with nobody else present gives a mock match each time, not `waiting`.
- **Stale waiting player.** A caller who finds the only waiting player stale gets a mock match, not `waiting` (`MatchmakingFacts.JoinHealsStaleOpponent`).
- **Mock fallback.** The fallback is always on.

## Model

| member | source | states |
|---|---|---|
| SortedSet.RemoveAll | actions/matchmaking.ts:118 | ZREM: the entries left are exactly those whose member is not removed |
| SortedSet.RemoveAllSorted | actions/matchmaking.ts:118 | removing members keeps the set sorted and its members unique |
| SortedSet.RemoveAllMembers | actions/matchmaking.ts:118 | the members left are the old members minus the removed ones |
| SortedSet.RemoveAllTwice | actions/matchmaking.ts:117-120 | removing one set after another equals removing their union |
| SortedSet.RemoveAllAbsent | actions/matchmaking.ts:112-120 | removing members that are not there changes nothing |
| SortedSet.Insert | actions/matchmaking.ts:98 | inserting adds exactly the new entry |
| SortedSet.InsertSorted | actions/matchmaking.ts:98 | inserting a new member keeps the order (score, then member) and adds that member |
| SortedSet.ZAddSorted | actions/matchmaking.ts:98 | ZADD leaves the member present once, with the new score; every other entry is kept and nothing else is added |
| SortedSet.UniqueEntry | actions/matchmaking.ts:98 | a sorted set holds at most one entry per member |
| SortedSet.BeforeTotal | actions/matchmaking.ts:129 | the queue order ranks any two entries with different members |
| SortedSet.BeforeTransitive | actions/matchmaking.ts:129 | the queue order is transitive |
| SortedSet.BeforeAsymmetric | actions/matchmaking.ts:129 | the queue order is asymmetric |
| SortedSet.RangeTopTwo | actions/matchmaking.ts:129 | on a sorted set, ZRANGE 0 1 returns a member exactly when it is queued and fewer than two entries rank before it |
| Realtime.QueueUpdateTotals | lib/realtime.ts:14-16 | `queueUpdate` accepts exactly whole, non-negative numeric totals |
| Realtime.PlayerSchemaKeys | lib/realtime.ts:6-10 | extra keys on a player are ignored; `username` must be present, if only as null |
| Matchmaking.PlayerJsonValid | actions/matchmaking.ts:198-202 | the record written for a player satisfies the player schema |
| Matchmaking.PlayerMetaKeyInjective | actions/matchmaking.ts:45 | distinct players have distinct metadata keys |
| Matchmaking.ParsePlayerMetaCases | actions/matchmaking.ts:47-72 | a record is absent exactly when it is missing or falsy, has no numeric `joinedAt`, or its age exceeds the TTL (an age of exactly the TTL is live); otherwise it is returned unchanged |
| Matchmaking.StoredRecordReadsBack | actions/matchmaking.ts:58-64 | a stored record reads back unchanged while its age is at most 300000 ms, and as absent after |
| Matchmaking.Truthy | actions/matchmaking.ts:110 | keeps exactly the present, non-empty ids |
| Matchmaking.Dedupe | actions/matchmaking.ts:109-111 | `[...new Set(s)]`: distinct elements, the same elements as `s` |
| Matchmaking.UniqueIdsSpec | actions/matchmaking.ts:109-114 | the ids removed are distinct, non-empty and exactly those given |
| Matchmaking.QueueUpdateAccepted | actions/matchmaking.ts:91-94 | the queue-size payload is accepted exactly when the total is non-negative |
| Matchmaking.MatchFoundAccepted | actions/matchmaking.ts:225-228 | the match payload is accepted exactly when it has two valid players |
| Matchmaking.ApplyAll | actions/matchmaking.ts:102 | running a store pipeline never publishes events |
| Matchmaking.ToLower | actions/matchmaking.ts:162 | lower-casing keeps the length, turns each capital `A`..`Z` into the small letter at the same place in the alphabet and keeps every other character |
| Matchmaking.Alphabets | actions/matchmaking.ts:162 | the capital and small alphabets are the 26 consecutive character codes from `A` and from `a` |
| Matchmaking.LowerCharIgnoresCase | actions/matchmaking.ts:162 | two characters lower-case alike exactly when they are equal or the capital and small form of one letter |
| Matchmaking.ToLowerIgnoresCase | actions/matchmaking.ts:160-163 | two ids compare equal after lower-casing exactly when they have the same length and agree letter by letter up to ASCII case |
| Matchmaking.RandomIndex | actions/matchmaking.ts:168 | `Math.floor(Math.random() * n)`: below `n` whenever there is a candidate, 0 when there is none, and every index below `n` can be drawn |
| Matchmaking.MockCandidates | actions/matchmaking.ts:163-165 | the roster filter keeps exactly the profiles whose lower-cased id differs from the caller's |
| Matchmaking.StorePipeline | actions/matchmaking.ts:96-102 | the two-command pipeline performs the ZADD and the SET and keeps the store invariant |
| Matchmaking.RemovalStep | actions/matchmaking.ts:117-120 | each loop iteration removes one more member and its key |
| Matchmaking.RemovalDone | actions/matchmaking.ts:122 | after the loop all unique ids are removed and the invariant holds |
| Matchmaking.TryMatchOpponentSound | actions/matchmaking.ts:143-158 | an opponent record returned by pairing satisfies the player schema |
| Matchmaking.Matchmaker.constructor | actions/matchmaking.ts:7-10 | a coordinator over a sorted queue and sound records, before any event |
| Matchmaking.Matchmaker.Emit | actions/matchmaking.ts:93 | publishing appends one schema-valid event and changes nothing else |
| Matchmaking.Matchmaker.Exec | actions/matchmaking.ts:102 | the store after `exec` is the pipeline applied in order |
| Matchmaking.Matchmaker.EmitQueueSize | actions/matchmaking.ts:91-94 | publishes the current queue size and nothing else |
| Matchmaking.Matchmaker.StorePlayer | actions/matchmaking.ts:96-104 | ZADD, SET, then the size update, keeping the invariant |
| Matchmaking.Matchmaker.RemovePlayersFromQueue | actions/matchmaking.ts:106-124 | the loop's pipeline removes every unique id and its key, then publishes the size; with no usable id, nothing happens |
| Matchmaking.Matchmaker.FetchPlayerMetas | actions/matchmaking.ts:74-89 | one entry per requested id, each the parsed record of that id; reads only |
| Matchmaking.Matchmaker.TryMatch | actions/matchmaking.ts:126-159 | the pairing step as specified by `TryMatchSpec` |
| Matchmaking.Matchmaker.JoinMatchmaking | actions/matchmaking.ts:186-231 | the whole join as specified by `JoinSpec`, keeping the invariant |
| MatchmakingFacts.RemovePlayersEffect | actions/matchmaking.ts:106-124 | removal drops exactly the unique ids and their keys; with none left it changes nothing and publishes nothing, else it publishes the new size |
| MatchmakingFacts.EmitQueueSizeValid | actions/matchmaking.ts:91-94 | the size update keeps the invariant and appends only a queue update |
| MatchmakingFacts.RemovePlayersValid | actions/matchmaking.ts:106-124 | removal keeps the invariant and publishes only queue updates |
| MatchmakingFacts.StorePlayerValid | actions/matchmaking.ts:96-104 | storing keeps the invariant and publishes only queue updates |
| MatchmakingFacts.EnrolledOnce | actions/matchmaking.ts:196-204 | after enrolment the caller is queued exactly once, scored by the new `joinedAt`; its record is new and every other entry and record is unchanged |
| MatchmakingFacts.OpponentCases | actions/matchmaking.ts:129-141 | no opponent when fewer than two are queued, the caller is not among the two lowest-ranked, or the other id is empty; otherwise the other of the two |
| MatchmakingFacts.NoQueueJumping | actions/matchmaking.ts:129-138 | first come, first served: a caller behind two other members is not paired |
| MatchmakingFacts.TryMatchHeals | actions/matchmaking.ts:143-158 | stale opponent: only it is removed; else stale caller: only the caller; else both, returning the opponent's record; no other member leaves |
| MatchmakingFacts.TryMatchValid | actions/matchmaking.ts:126-159 | pairing keeps the invariant and publishes only queue updates |
| MatchmakingFacts.JoinRejectsMissingId | actions/matchmaking.ts:192-194 | an empty id fails before the store or the channel is touched |
| MatchmakingFacts.JoinKeepsValid | actions/matchmaking.ts:186-231 | every payload a join publishes satisfies its schema, and the event log only grows |
| MatchmakingFacts.JoinRealMatch | actions/matchmaking.ts:222-230 | a real match is [opponent's stored record, caller's record]; the same room and players are published as the last event, and both players left the queue |
| MatchmakingFacts.JoinMockMatch | actions/matchmaking.ts:207-218 | the mock fires exactly when no opponent was found and one member is left; it then removes the caller, returns a `mock-` room with [roster opponent, caller] where the opponent's id differs from the caller's ignoring case, and publishes no match |
| MatchmakingFacts.JoinWaitsBehindTwo | actions/matchmaking.ts:206-219 | behind two waiting members the caller waits, queued, and nobody else is touched |
| MatchmakingFacts.EnrolledBehind | actions/matchmaking.ts:196-204 | joining behind one waiting player leaves both queued in arrival order |
| MatchmakingFacts.JoinPairsWithWaitingPlayer | actions/matchmaking.ts:186-231 | joining behind one live player matches the two, stored record first, and empties the queue |
| MatchmakingFacts.JoinHealsStaleOpponent | actions/matchmaking.ts:143-150 | joining behind one stale player removes it and its record, then gives a mock match and an empty queue |
| MatchmakingFacts.RosterNeverExhausted | actions/matchmaking.ts:12-25 | whichever caller is excluded, at least two roster profiles remain |
| MatchmakingFacts.MockOpponentDiffers | actions/matchmaking.ts:161-175 | the mock opponent is one of the candidates, so it differs from the caller ignoring case, whatever the draw; every candidate can be drawn; it is stamped with the current time |
| CardGame.Beats | components/SectionGame/index.tsx:21-25 | no card beats itself |
| CardGame.BeatsIsThreeCycle | components/SectionGame/index.tsx:21-25 | the relation is a three-cycle: each card beats exactly one other and is beaten by exactly one |
| CardGame.RoundOutcomeFair | components/SectionGame/index.tsx:207-217 | equal cards draw; otherwise the player wins exactly when its card beats the rival's, and the rival wins exactly when the rival's card beats the player's |
| CardGame.Resolve | components/SectionGame/index.tsx:204-239 | the round's outcome is the card rule's |
| CardGame.DrawKeepsHearts | components/SectionGame/index.tsx:207-213 | a draw keeps both hearts and ends the game only in the last round on unequal hearts |
| CardGame.DecisiveRound | components/SectionGame/index.tsx:217-227 | only the loser loses a heart, never below zero, and the winner's hearts stay |
| CardGame.WinnerRule | components/SectionGame/index.tsx:229-235 | the game ends when a side is emptied or in the last round; the player is declared only when strictly ahead, so ties go to the rival |
| CardGame.KeepOthersSpec | components/SectionGame/index.tsx:322 | the index filter removes exactly the card at the index |
| CardGame.FilterIndexSpec | components/SectionGame/index.tsx:322 | using a card removes exactly that card and keeps the rest in order; an index out of range removes nothing |
| CardGame.AdvanceRule | components/SectionGame/index.tsx:111-123 | after a final winner nothing changes; otherwise the table is cleared and the counter becomes min(prev+1, 3) |
| CardGame.DeclareOneShot | components/SectionGame/index.tsx:125-128 | the first declared winner stays; later calls change nothing |
| CardGame.HeartsWatchRule | components/SectionGame/index.tsx:253-261 | with exactly one side at zero hearts, the other side is declared; otherwise nothing changes |
| CardGame.FinalDrawRule | components/SectionGame/index.tsx:205-213 | a last-round draw declares the side with more hearts, or only shows the outcome on equal hearts |
| CardGame.NextKeepsValid | components/SectionGame/index.tsx:69-80 | hearts stay within 0..2, the counter within 1..3, the clock within 0..120 and the hand within three cards |
| CardGame.NextMonotone | components/SectionGame/index.tsx:111-272 | no transition adds hearts, moves the counter back or changes a declared winner |
| CardGame.RunMonotone | components/SectionGame/index.tsx:111-272 | the same holds along any sequence of transitions |
| CardGame.DismissBlocksUse | components/SectionGame/index.tsx:692-695 | closing the overlay keeps the stale index, but nothing can be used until a card is selected again |
| CardGame.ResolveEffectIdempotent | components/SectionGame/index.tsx:194-250 | the corrected resolution effect settles after one run |
| CardGame.CountdownSpec | components/SectionGame/index.tsx:158-164 | after n seconds the clock reads max(t - n, 0) |
| CardGame.FirstRoundWon | components/SectionGame/index.tsx:293-337 | Cowboy against Zombie in round one: rival down to one heart, Cowboy out of the hand, modal open, then round two on a clear table |
| CardGame.DoubleResolutionAsWritten | components/SectionGame/index.tsx:194-250 | as written, a decisive last round is resolved twice and costs the loser two hearts; corrected, one |
| CardGame.Battle.constructor | components/SectionGame/index.tsx:49-80 | the initial screen: full hand, two hearts each, round one, 120 s |
| CardGame.Battle.AdvanceToNextMatch | components/SectionGame/index.tsx:111-123 | performs `Advance` |
| CardGame.Battle.DeclareFinalWinner | components/SectionGame/index.tsx:125-143 | performs `Declare` |
| CardGame.Battle.ResolveRound | components/SectionGame/index.tsx:194-250 | performs the corrected resolution effect |
| CardGame.Battle.WatchHearts | components/SectionGame/index.tsx:253-261 | performs the hearts watcher |
| CardGame.Battle.WatchFinalDraw | components/SectionGame/index.tsx:263-272 | performs the final-draw watcher |
| CardGame.Battle.CloseOutcome | components/SectionGame/index.tsx:283-291 | the modal timer moves on to the next round |
| CardGame.Battle.Tick | components/SectionGame/index.tsx:158-164 | one second off the clock, stopping at zero |
| CardGame.Battle.SelectCard | components/SectionGame/index.tsx:293-301 | the clicked card and index become the selection |
| CardGame.Battle.UseSelected | components/SectionGame/index.tsx:313-327 | the selected card leaves the hand and flies to the table |
| CardGame.Battle.DismissSelection | components/SectionGame/index.tsx:692-695 | the Close overlay drops the selected card and keeps the index |
| CardGame.Battle.LandPlayerCard | components/SectionGame/index.tsx:770-774 | the flying card becomes the placed card |
| CardGame.Battle.SendRivalCard | components/SectionGame/index.tsx:332-336 | the rival's chosen card starts flying |
| CardGame.Battle.LandRivalCard | components/SectionGame/index.tsx:807-811 | the rival's flying card becomes its placed card |
| CardGame.Battle.ArmBattle | components/SectionGame/index.tsx:166-176 | both cards down arms the battle; otherwise it is reset |
| CardGame.Battle.StartShake | components/SectionGame/index.tsx:178-192 | an armed battle shakes; a disarmed one goes idle and clears the outcome |
| CardGame.Battle.FlipCards | components/SectionGame/index.tsx:185-187 | the shake ends in a flip |
| Yellow.HexDigitsValue | lib/yellow.ts:97 | a value exactly for non-empty strings of hexadecimal digits |
| Yellow.HexDigitTable | lib/yellow.ts:97 | `0`..`9` and `a`..`f`, in either case, are the digits 0..15 in that order |
| Yellow.HexDigitsAppend | lib/yellow.ts:97 | positional notation: the value of `a + b` is the value of `a` times 16 to the length of `b`, plus the value of `b`; one digit is worth its digit value |
| Yellow.AddressValue | lib/yellow.ts:97 | `BigInt` of an address has a value exactly for `0x` followed by one or more hex digits, and that value is the value of the digits after the prefix |
| Yellow.AddressValueExamples | lib/yellow.ts:97 | `0x10` is 16, `0x01` is 1, `0xfF` is 255, `0X2a` equals `0x2A`; `0x` and `10` have no value |
| Yellow.ParticipantsOrdered | lib/yellow.ts:96-102 | the partner comes first exactly when the session address is greater; the pair is a permutation of the two addresses, smaller value first |
| Yellow.ParticipantsAgree | lib/yellow.ts:107-108 | swapping the session and partner roles gives the same pair for numerically distinct addresses |
| Yellow.WeightsReachQuorum | lib/yellow.ts:104-113 | equal weights [50, 50] that sum to the quorum 100 |
| Yellow.YellowSession.constructor | lib/yellow.ts:38-41 | the session starts inactive with no signer |
| Yellow.YellowSession.CreateSession | lib/yellow.ts:90-183 | fails without a socket, a wallet or valid addresses; otherwise runs the handshake and becomes active, with its signer, only if the node accepts |
| Yellow.YellowSession.SendEvent | lib/yellow.ts:185-208 | refuses without a socket or an active session; otherwise sends one signed transfer |
| Yellow.SessionGuardScenario | lib/yellow.ts:185-193 | an event is refused before the session exists and sent after it is accepted |
| Wallet.FormattedAddressShape | lib/wallet.ts:14-16 | a 42-character `0x` address shows as its first four and last four characters around "...", eleven characters, never the placeholder |
| Wallet.EmptyAddressIsNoAddress | lib/wallet.ts:12-24 | an empty wallet address behaves as none: whatever the name service would answer, the identity is the one shown without a wallet |
| Wallet.AddressUsesNameService | lib/wallet.ts:12-26 | with a non-empty address, the address is passed through and a non-empty name-service name becomes the display name |
| Wallet.BeforeFirst | lib/wallet.ts:26 | `split("@")[0]`: the longest prefix without `@` |
| Wallet.UsernameChoice | lib/wallet.ts:26 | the name-service name, else the mailbox part of the e-mail, else "PlayerOne"; never empty |
| Wallet.UseAuthIdentity | lib/wallet.ts:10-35 | no address means the placeholder and no name lookup; a standard address shows as eleven characters; the name is never empty |
| AddressFormat.SubstrFacts | lib/utils.ts:11 | `substr` per section B.2.2.1 of ECMA-262: a negative start counts back from the end, stopping at the first character; a start at or past the end, or a length of zero or less, gives ""; an in-range start and length give exactly those characters; the result is one contiguous piece of the string, no longer than the length asked for |
| AddressFormat.BeautifyShape | lib/utils.ts:10-11 | first min(size, len) characters, the separator, then the last `size` characters (or the whole string); length 2*min(size, len) + separator |
| AddressFormat.BeautifyNegativeSize | lib/utils.ts:10-11 | a negative size leaves only the separator |
| AddressFormat.BeautifyDefaultAddress | lib/utils.ts:10 | a 42-character `0x` address becomes 11 characters starting with `0x` |

## Left out

- The Redis/Upstash client is replaced by the `World` value. Left out with it:
  - network errors;
  - `JSON.parse` of string values (the model sees records as the client returns them, already decoded);
  - key expiry by the store (the age check in `parsePlayerMeta` gives the same outcome for every read the coordinator makes).
- Concurrency of server invocations and the atomicity of pipelines are out of scope. Each call runs alone.
- The `realtime.emit` transport is left out. The channel is a log, and `Emit` takes only payloads the schema accepts, as the typed channel does.
- `Matchmaking.Matchmaker.constructor` and `Emit` assume that every stored record with a numeric `joinedAt` satisfies the player schema. In the system only `storePlayer` writes these keys.
- Randomness and time come in as parameters:
  - `createRoomId` (the fallback format is not modelled);
  - `Date.now`;
- Matchmaking.TryMatchSpec: one clock reading, `Environment.checkedAt`, judges the age of both records of a pair. The source reads `Date.now()` once per record in `parsePlayerMeta` (actions/matchmaking.ts:61, 84-87), so a record at the TTL boundary could be judged fresh on one reading and stale on the next.
  - the random draw behind the roster index: any natural number, reduced modulo the number of candidates, as `Math.floor(Math.random() * n)` gives every index below `n`;
  - the rival's card.
- `generateRewards` is left out because it rounds float dollar amounts.
- JSON numbers are reals, so NaN, infinities and float rounding are not modelled.
- `toLowerCase` is modelled for ASCII letters only; Unicode case mapping is not modelled.
- Member strings compare by character code, as Redis compares bytes for the ASCII ids used here.
- `BigInt` is modelled only for `0x` hexadecimal strings. Decimal forms, other prefixes and surrounding whitespace are left out.
- The card game leaves the following out:
  - JSX, CSS, keyframes, DOMRect geometry, animation flags and the reveal or fan state;
  - `activeHandIndex` and the card ids from `createInitialHand`, which only drive the display;
  - the intermediate null selection before `requestAnimationFrame`.
  - Timers and animation frames are left out as well. Each callback is a transition, and a caller orders them.
- `lib/yellow.ts` leaves the following out:
  - the WebSocket itself;
  - message signing, keccak and the EIP-712 signer;
  - nitrolite message encoding and the float `nonce`;
  - the challenge wait.
  - The node's answer is the `accepted` parameter. A rejected wallet signature is not modelled. The answer's `latestEvent` is never set in the source and is not modelled.
- Yellow.YellowSession.SendEvent: `isSessionActive` is React state, and `sendEvent` reads it from the render that created it. A `sendEvent` taken before `createSession` resolves still refuses with "session is not active" after the session is accepted, until the component renders again. The model updates the flag at once, so `SessionGuardScenario`'s "sent after it is accepted" holds for a `sendEvent` taken from a later render only.
- Privy and ENS lookups are inputs.
- `cn`, `generateUUID` and `jsonify` are library wrappers, randomness or I/O, and are left out.
- Modal and presentation components are not part of this model:
  - `components/SectionGame/Nuke.tsx`, `components/SectionGame/Retreat.tsx`;
  - `components/SectionHome/index.tsx`, `app/layout.tsx`, `app/page.tsx`;
  - `components/MainLayout.tsx`, `components/Providers.tsx`, `components/AddressBlock.tsx`;
  - `lib/state.ts`.
- AddressFormat.BeautifyAddress: integer sizes only. A fractional size, which `substr` would truncate, is not modelled.

## Findings

| source | as written | input that shows it | evidently intended | confidence | as-written member | corrected member |
|---|---|---|---|---|---|---|
| components/SectionGame/index.tsx:194-250 | the resolution effect's guard checks only the phase, both cards and an empty outcome; `declareFinalWinner` clears the outcome, so the effect runs again on the same cards | a decisive last round at two hearts each (Cowboy against Zombie, round 3): the rival ends at 0 hearts instead of 1 | one round costs the loser at most one heart; nothing is resolved once a final winner exists | medium, not executed | CardGame.DoubleResolutionAsWritten | CardGame.ResolveEffectIdempotent |
