/**
 * The card battle screen: three cards in a rock-paper-scissors cycle, two
 * hearts a side, at most three rounds. The screen's state is one record,
 * and every effect, timer callback and click handler is one transition on it.
 */
module CardGame {
  import opened Wrappers

  datatype Card = Cowboy | Zombie | Alien

  /** The starting hand, in display order. */
  const PLAYER_HAND: seq<Card> := [Cowboy, Zombie, Alien]
  const MAX_MATCHES: int := 3
  const INITIAL_HEARTS: int := 2
  const INITIAL_TIME: int := 120

  /** `CARD_BEATS`: the card each card defeats. */
  function Beats(c: Card): (r: Card)
    ensures r != c
  {
    match c
    case Cowboy => Zombie
    case Zombie => Alien
    case Alien => Cowboy
  }

  /** `CARD_BEATS` is a three-cycle: each card beats exactly one other and is beaten by exactly one. */
  lemma BeatsIsThreeCycle()
    ensures forall c :: Beats(Beats(Beats(c))) == c
    ensures forall c, d :: Beats(c) == Beats(d) ==> c == d
    ensures forall d :: Beats(Beats(d)) != d && Beats(Beats(Beats(d))) == d
  {
  }

  datatype Side = PlayerSide | RivalSide
  datatype Outcome = Won(side: Side) | Draw
  datatype Phase = Idle | Shake | Flip

  function Max(a: int, b: int): int { if a >= b then a else b }
  function Min(a: int, b: int): int { if a <= b then a else b }

  /** The outcome of one round, as the player sees it. */
  function RoundOutcome(placed: Card, rival: Card): Outcome {
    if placed == rival then Draw
    else if Beats(placed) == rival then Won(PlayerSide)
    else Won(RivalSide)
  }

  function Opposite(s: Side): Side {
    if s == PlayerSide then RivalSide else PlayerSide
  }

  /**
   * Because the relation is a three-cycle, two different cards always have a
   * winner, and the rule treats both seats alike.
   */
  lemma RoundOutcomeFair(placed: Card, rival: Card)
    ensures RoundOutcome(placed, rival) == Draw <==> placed == rival
    ensures RoundOutcome(placed, rival) == Won(PlayerSide) <==> Beats(placed) == rival
    ensures RoundOutcome(placed, rival) == Won(RivalSide) <==> Beats(rival) == placed
    ensures RoundOutcome(placed, rival).Won? ==>
      RoundOutcome(rival, placed) == Won(Opposite(RoundOutcome(placed, rival).side))
  {
  }

  /** The side declared when the game ends on the given hearts: ties go to the rival. */
  function Leader(playerHearts: int, rivalHearts: int): Side {
    if playerHearts > rivalHearts then PlayerSide else RivalSide
  }

  function HeartsOf(side: Side, playerHearts: int, rivalHearts: int): int {
    if side == PlayerSide then playerHearts else rivalHearts
  }

  /** What a resolved round decides: its outcome, the new hearts and the final winner, if any. */
  datatype Resolution = Resolution(outcome: Outcome, playerHearts: int, rivalHearts: int, winner: Option<Side>)

  /** The body of the round-resolution timer. */
  function Resolve(placed: Card, rival: Card, playerHearts: int, rivalHearts: int, currentMatch: int): (r: Resolution)
    ensures r.outcome == RoundOutcome(placed, rival)
  {
    var isFinalRound := currentMatch == MAX_MATCHES;
    if placed == rival then
      Resolution(Draw, playerHearts, rivalHearts,
        if isFinalRound && playerHearts != rivalHearts then Some(Leader(playerHearts, rivalHearts)) else None)
    else
      var playerWins := Beats(placed) == rival;
      var nextPlayerHearts := if playerWins then playerHearts else Max(0, playerHearts - 1);
      var nextRivalHearts := if playerWins then Max(0, rivalHearts - 1) else rivalHearts;
      var heartsFinished := nextPlayerHearts == 0 || nextRivalHearts == 0;
      Resolution(if playerWins then Won(PlayerSide) else Won(RivalSide), nextPlayerHearts, nextRivalHearts,
        if heartsFinished || isFinalRound then Some(Leader(nextPlayerHearts, nextRivalHearts)) else None)
  }

  /** A draw leaves both heart counts alone. */
  lemma DrawKeepsHearts(placed: Card, pH: int, rH: int, currentMatch: int)
    ensures Resolve(placed, placed, pH, rH, currentMatch).playerHearts == pH
    ensures Resolve(placed, placed, pH, rH, currentMatch).rivalHearts == rH
    ensures Resolve(placed, placed, pH, rH, currentMatch).winner.Some? <==> currentMatch == MAX_MATCHES && pH != rH
  {
  }

  /** In a decisive round exactly the loser loses one heart, never below zero; the winner's hearts stay. */
  lemma DecisiveRound(placed: Card, rival: Card, pH: int, rH: int, currentMatch: int)
    requires placed != rival && pH >= 0 && rH >= 0
    ensures var r := Resolve(placed, rival, pH, rH, currentMatch);
      var w := r.outcome.side;
      && r.outcome.Won?
      && HeartsOf(w, r.playerHearts, r.rivalHearts) == HeartsOf(w, pH, rH)
      && HeartsOf(Opposite(w), r.playerHearts, r.rivalHearts) == Max(0, HeartsOf(Opposite(w), pH, rH) - 1)
      && r.playerHearts + r.rivalHearts == pH + rH - (if HeartsOf(Opposite(w), pH, rH) > 0 then 1 else 0)
  {
    RoundOutcomeFair(placed, rival);
  }

  /**
   * The game ends after a decisive round that empties a side or is the last
   * one, and after a last-round draw on unequal hearts; the player is
   * declared only when strictly ahead, so ties go to the rival.
   */
  lemma WinnerRule(placed: Card, rival: Card, pH: int, rH: int, currentMatch: int)
    ensures var r := Resolve(placed, rival, pH, rH, currentMatch);
      && (r.winner.Some? <==>
           if placed == rival then currentMatch == MAX_MATCHES && pH != rH
           else r.playerHearts == 0 || r.rivalHearts == 0 || currentMatch == MAX_MATCHES)
      && (r.winner == Some(PlayerSide) ==> r.playerHearts > r.rivalHearts)
      && (r.winner == Some(RivalSide) ==> r.rivalHearts >= r.playerHearts)
  {
  }

  // ---------------------------------------------------------------------------
  // The screen's state

  /**
   * The state the screen keeps: the hand, the pending selection, the cards in
   * flight and on the table, the battle animation phase, the round outcome
   * and its modal, hearts, the round counter, the final winner and the clock.
   */
  datatype GameState = GameState(
    hand: seq<Card>,
    selectedCard: Option<Card>,
    selectedIndex: Option<nat>,
    movingCard: Option<Card>,
    movingRivalCard: Option<Card>,
    placedCard: Option<Card>,
    rivalPlacedCard: Option<Card>,
    battleReady: bool,
    battlePhase: Phase,
    battleOutcome: Option<Outcome>,
    showOutcomeModal: bool,
    playerHearts: int,
    rivalHearts: int,
    currentMatch: int,
    finalWinner: Option<Side>,
    timeLeft: int)

  function Initial(): GameState {
    GameState(PLAYER_HAND, None, None, None, None, None, None, false, Idle, None, false,
      INITIAL_HEARTS, INITIAL_HEARTS, 1, None, INITIAL_TIME)
  }

  /** Every state the screen reaches keeps its counters within their ranges. */
  predicate Valid(s: GameState) {
    && 0 <= s.playerHearts <= INITIAL_HEARTS
    && 0 <= s.rivalHearts <= INITIAL_HEARTS
    && 1 <= s.currentMatch <= MAX_MATCHES
    && 0 <= s.timeLeft <= INITIAL_TIME
    && |s.hand| <= |PLAYER_HAND|
  }

  /** `advanceToNextMatch`: clear the table and move the counter on, unless the game is over. */
  function Advance(s: GameState): GameState {
    if s.finalWinner.Some? then s
    else s.(showOutcomeModal := false, battleOutcome := None, placedCard := None, rivalPlacedCard := None,
            selectedCard := None, selectedIndex := None, battleReady := false, battlePhase := Idle,
            currentMatch := Min(s.currentMatch + 1, MAX_MATCHES))
  }

  /** `declareFinalWinner`: record the winner once and close the round's outcome. */
  function Declare(s: GameState, winner: Side): GameState {
    if s.finalWinner.Some? then s
    else s.(finalWinner := Some(winner), showOutcomeModal := false, battleOutcome := None)
  }

  /** Apply a resolved round: show its outcome and hearts, then end the game or open the modal. */
  function ApplyResolution(s: GameState, r: Resolution): GameState {
    var shown := s.(battleOutcome := Some(r.outcome), playerHearts := r.playerHearts, rivalHearts := r.rivalHearts);
    if r.winner.Some? then Declare(shown, r.winner.value) else shown.(showOutcomeModal := true)
  }

  /** The resolution effect's guard as written: the flip has happened, both cards are down, no outcome is shown. */
  predicate ResolveGuardAsWritten(s: GameState) {
    s.battlePhase == Flip && s.placedCard.Some? && s.rivalPlacedCard.Some? && s.battleOutcome.None?
  }

  /** The resolution effect as written. */
  function ResolveEffectAsWritten(s: GameState): GameState {
    if !ResolveGuardAsWritten(s) then s
    else ApplyResolution(s, Resolve(s.placedCard.value, s.rivalPlacedCard.value, s.playerHearts, s.rivalHearts, s.currentMatch))
  }

  /** The resolution effect with the guard also waiting for no final winner. */
  function ResolveEffect(s: GameState): GameState {
    if !ResolveGuardAsWritten(s) || s.finalWinner.Some? then s
    else ApplyResolution(s, Resolve(s.placedCard.value, s.rivalPlacedCard.value, s.playerHearts, s.rivalHearts, s.currentMatch))
  }

  /** The hearts watcher: a side at zero hearts loses, unless both are. */
  function HeartsWatch(s: GameState): GameState {
    if s.finalWinner.Some? then s
    else if s.playerHearts <= 0 && s.rivalHearts <= 0 then s
    else if s.playerHearts <= 0 then Declare(s, RivalSide)
    else if s.rivalHearts <= 0 then Declare(s, PlayerSide)
    else s
  }

  /** The final-draw watcher: a shown last-round draw on unequal hearts ends the game. */
  function FinalDrawWatch(s: GameState): GameState {
    if s.finalWinner.Some? then s
    else if s.currentMatch == MAX_MATCHES && s.battleOutcome == Some(Draw) && s.showOutcomeModal
         && s.playerHearts != s.rivalHearts
    then Declare(s, Leader(s.playerHearts, s.rivalHearts))
    else s
  }

  /** The modal's reset timer: a shown outcome moves on to the next round. */
  function ResetTimer(s: GameState): GameState {
    if s.showOutcomeModal && s.battleOutcome.Some? && s.finalWinner.None? then Advance(s) else s
  }

  /** One second of the countdown. */
  function TickValue(t: int): int {
    if t > 0 then t - 1 else 0
  }

  /** `filter((_, idx) => idx !== index)` over the hand, with `from` the index of its first card. */
  function KeepOthers(hand: seq<Card>, index: int, from: int): seq<Card>
    decreases |hand|
  {
    if hand == [] then []
    else (if from == index then [] else [hand[0]]) + KeepOthers(hand[1..], index, from + 1)
  }

  function FilterIndex(hand: seq<Card>, index: int): seq<Card> {
    KeepOthers(hand, index, 0)
  }

  /** The hand filter removes exactly the card at the index, keeping the others in order. */
  lemma {:induction false} KeepOthersSpec(hand: seq<Card>, index: int, from: int)
    ensures KeepOthers(hand, index, from) ==
      if from <= index < from + |hand| then hand[..index - from] + hand[index - from + 1..] else hand
    decreases |hand|
  {
    if hand != [] {
      KeepOthersSpec(hand[1..], index, from + 1);
      if from < index < from + |hand| {
        assert hand[1..][..index - from - 1] == hand[1..index - from];
        assert hand[1..][index - from..] == hand[index - from + 1..];
        assert hand == [hand[0]] + hand[1..];
        assert [hand[0]] + hand[1..index - from] == hand[..index - from];
      } else if from == index {
        assert hand[..0] == [];
      } else {
        assert hand == [hand[0]] + hand[1..];
      }
    }
  }

  lemma FilterIndexSpec(hand: seq<Card>, index: int)
    ensures FilterIndex(hand, index) ==
      if 0 <= index < |hand| then hand[..index] + hand[index + 1..] else hand
    ensures |FilterIndex(hand, index)| == if 0 <= index < |hand| then |hand| - 1 else |hand|
  {
    KeepOthersSpec(hand, index, 0);
  }

  /** The card clicked in the hand becomes the selection. */
  function Select(s: GameState, card: Card, index: nat): GameState {
    s.(selectedCard := Some(card), selectedIndex := Some(index))
  }

  /** `handleUse`: the selected card leaves the hand and flies to the table. */
  function Use(s: GameState): GameState {
    if s.selectedCard.None? || s.selectedIndex.None? then s
    else s.(hand := FilterIndex(s.hand, s.selectedIndex.value), movingCard := s.selectedCard, selectedCard := None)
  }

  /** The Close overlay: the selection is dropped; the selected index is left as it was. */
  function Dismiss(s: GameState): GameState {
    s.(selectedCard := None)
  }

  /** The player's flying card lands on the table. */
  function LandPlayer(s: GameState): GameState {
    if s.movingCard.None? then s else s.(placedCard := s.movingCard, movingCard := None)
  }

  /** The rival, after a delay, sends its (randomly chosen) card flying. */
  function RivalPick(s: GameState, card: Card): GameState {
    s.(movingRivalCard := Some(card))
  }

  /** The rival's flying card lands on the table. */
  function LandRival(s: GameState): GameState {
    if s.movingRivalCard.None? then s else s.(rivalPlacedCard := s.movingRivalCard, movingRivalCard := None)
  }

  /** The placement effect: with both cards down the battle is armed, otherwise everything is reset. */
  function Placement(s: GameState): GameState {
    if s.placedCard.None? || s.rivalPlacedCard.None? then
      s.(battleReady := false, battleOutcome := None, showOutcomeModal := false)
    else s.(battleReady := true)
  }

  /** The ready effect: an armed battle starts shaking, a disarmed one goes idle. */
  function Ready(s: GameState): GameState {
    if !s.battleReady then s.(battlePhase := Idle, battleOutcome := None, showOutcomeModal := false)
    else s.(battlePhase := Shake)
  }

  /** The shake timer: the cards flip. */
  function FlipTimer(s: GameState): GameState {
    if s.battlePhase == Shake then s.(battlePhase := Flip) else s
  }

  datatype Step =
    | TickStep
    | SelectStep(card: Card, index: nat)
    | UseStep
    | DismissStep
    | LandPlayerStep
    | RivalPickStep(rivalCard: Card)
    | LandRivalStep
    | PlacementStep
    | ReadyStep
    | FlipStep
    | ResolveStep
    | HeartsWatchStep
    | FinalDrawStep
    | ResetStep

  /** The screen's transition relation: one effect, timer or handler at a time. */
  function Next(s: GameState, step: Step): GameState {
    match step
    case TickStep => s.(timeLeft := TickValue(s.timeLeft))
    case SelectStep(card, index) => Select(s, card, index)
    case UseStep => Use(s)
    case DismissStep => Dismiss(s)
    case LandPlayerStep => LandPlayer(s)
    case RivalPickStep(card) => RivalPick(s, card)
    case LandRivalStep => LandRival(s)
    case PlacementStep => Placement(s)
    case ReadyStep => Ready(s)
    case FlipStep => FlipTimer(s)
    case ResolveStep => ResolveEffect(s)
    case HeartsWatchStep => HeartsWatch(s)
    case FinalDrawStep => FinalDrawWatch(s)
    case ResetStep => ResetTimer(s)
  }

  function Run(s: GameState, steps: seq<Step>): GameState
    decreases |steps|
  {
    if steps == [] then s else Run(Next(s, steps[0]), steps[1..])
  }

  // ---------------------------------------------------------------------------
  // Properties of the transitions

  /** `advanceToNextMatch` does nothing once the game is over, and otherwise clears the table and counts up to at most three. */
  lemma AdvanceRule(s: GameState)
    requires Valid(s)
    ensures s.finalWinner.Some? ==> Advance(s) == s
    ensures s.finalWinner.None? ==>
      && Advance(s).placedCard.None? && Advance(s).rivalPlacedCard.None?
      && Advance(s).selectedCard.None? && Advance(s).battleOutcome.None?
      && Advance(s).currentMatch == (if s.currentMatch < MAX_MATCHES then s.currentMatch + 1 else MAX_MATCHES)
    ensures Valid(Advance(s))
  {
  }

  /** `declareFinalWinner` is one-shot. */
  lemma DeclareOneShot(s: GameState, first: Side, later: Side)
    ensures Declare(Declare(s, first), later) == Declare(s, first)
    ensures s.finalWinner.None? ==> Declare(s, first).finalWinner == Some(first)
    ensures s.finalWinner.Some? ==> Declare(s, first) == s
  {
  }

  /** The hearts watcher declares the side that still has hearts when exactly one side has none. */
  lemma HeartsWatchRule(s: GameState)
    requires Valid(s) && s.finalWinner.None?
    ensures s.playerHearts == 0 && s.rivalHearts > 0 ==> HeartsWatch(s).finalWinner == Some(RivalSide)
    ensures s.rivalHearts == 0 && s.playerHearts > 0 ==> HeartsWatch(s).finalWinner == Some(PlayerSide)
    ensures (s.playerHearts == 0) == (s.rivalHearts == 0) ==> HeartsWatch(s) == s
  {
  }

  /**
   * A last-round draw on unequal hearts ends the game in favour of the side
   * with more hearts; on equal hearts it only shows the outcome.
   */
  lemma FinalDrawRule(s: GameState, card: Card)
    requires s.finalWinner.None? && s.currentMatch == MAX_MATCHES
    requires s.battlePhase == Flip && s.placedCard == Some(card) && s.rivalPlacedCard == Some(card) && s.battleOutcome.None?
    ensures s.playerHearts != s.rivalHearts ==>
      ResolveEffect(s).finalWinner == Some(if s.playerHearts > s.rivalHearts then PlayerSide else RivalSide)
    ensures s.playerHearts == s.rivalHearts ==>
      && ResolveEffect(s).finalWinner.None?
      && ResolveEffect(s).battleOutcome == Some(Draw)
      && ResolveEffect(s).showOutcomeModal
  {
  }

  /** Every transition keeps the counters in range. */
  lemma NextKeepsValid(s: GameState, step: Step)
    requires Valid(s)
    ensures Valid(Next(s, step))
  {
    if step == UseStep && s.selectedCard.Some? && s.selectedIndex.Some? {
      FilterIndexSpec(s.hand, s.selectedIndex.value);
    }
  }

  /**
   * Along any run hearts never grow, the round counter never goes back, and
   * a declared final winner never changes.
   */
  lemma NextMonotone(s: GameState, step: Step)
    requires Valid(s)
    ensures Next(s, step).playerHearts <= s.playerHearts
    ensures Next(s, step).rivalHearts <= s.rivalHearts
    ensures Next(s, step).currentMatch >= s.currentMatch
    ensures s.finalWinner.Some? ==> Next(s, step).finalWinner == s.finalWinner
  {
  }

  lemma {:induction false} RunMonotone(s: GameState, steps: seq<Step>)
    requires Valid(s)
    ensures Valid(Run(s, steps))
    ensures Run(s, steps).playerHearts <= s.playerHearts
    ensures Run(s, steps).rivalHearts <= s.rivalHearts
    ensures Run(s, steps).currentMatch >= s.currentMatch
    ensures s.finalWinner.Some? ==> Run(s, steps).finalWinner == s.finalWinner
    decreases |steps|
  {
    if steps != [] {
      NextKeepsValid(s, steps[0]);
      NextMonotone(s, steps[0]);
      RunMonotone(Next(s, steps[0]), steps[1..]);
    }
  }

  /**
   * Closing the overlay keeps the stale index, but no card can be used until
   * a new one is selected.
   */
  lemma DismissBlocksUse(s: GameState)
    ensures Dismiss(s).selectedIndex == s.selectedIndex
    ensures Use(Dismiss(s)) == Dismiss(s)
    ensures Use(Select(Dismiss(s), Cowboy, 0)).movingCard == Some(Cowboy)
  {
  }

  /** The resolution effect settles: once it has run, running it again changes nothing. */
  lemma ResolveEffectIdempotent(s: GameState)
    ensures ResolveEffect(ResolveEffect(s)) == ResolveEffect(s)
  {
  }

  /** The countdown after `n` seconds. */
  function Countdown(t: int, n: nat): int
    decreases n
  {
    if n == 0 then t else Countdown(TickValue(t), n - 1)
  }

  /** Each second takes one off the clock and the clock stops at zero. */
  lemma {:induction false} CountdownSpec(t: int, n: nat)
    requires t >= 0
    ensures Countdown(t, n) == Max(t - n, 0)
    decreases n
  {
    if n > 0 {
      CountdownSpec(TickValue(t), n - 1);
    }
  }

  // ---------------------------------------------------------------------------
  // A round played out

  /**
   * One round as the screen sequences it: pick card `index` of the hand, it
   * flies and lands, the rival's card flies and lands, the battle is armed,
   * shakes, flips and resolves.
   */
  function PlayRound(s: GameState, card: Card, index: nat, rivalCard: Card): GameState {
    var picked := Use(Select(s, card, index));
    var placed := LandRival(RivalPick(LandPlayer(picked), rivalCard));
    ResolveEffect(FlipTimer(Ready(Placement(placed))))
  }

  /**
   * Opening with the Cowboy against a Zombie wins the first round: the rival
   * drops to one heart, the Cowboy leaves the hand, the outcome modal opens,
   * and its timer moves on to round two with the table cleared.
   */
  lemma FirstRoundWon()
    ensures var s := PlayRound(Initial(), Cowboy, 0, Zombie);
      && s.battleOutcome == Some(Won(PlayerSide))
      && s.playerHearts == 2 && s.rivalHearts == 1
      && s.hand == [Zombie, Alien]
      && s.showOutcomeModal && s.finalWinner.None?
      && ResetTimer(s).currentMatch == 2
      && ResetTimer(s).placedCard.None? && ResetTimer(s).rivalPlacedCard.None?
  {
    FilterIndexSpec(PLAYER_HAND, 0);
    assert PLAYER_HAND[1..] == [Zombie, Alien];
    var picked := Use(Select(Initial(), Cowboy, 0));
    assert picked.hand == [Zombie, Alien] && picked.movingCard == Some(Cowboy);
    var placed := LandRival(RivalPick(LandPlayer(picked), Zombie));
    assert placed.placedCard == Some(Cowboy) && placed.rivalPlacedCard == Some(Zombie);
    var flipped := FlipTimer(Ready(Placement(placed)));
    assert flipped.battlePhase == Flip && flipped.battleOutcome.None? && flipped.currentMatch == 1;
  }

  // ---------------------------------------------------------------------------
  // The resolution effect as written

  /**
   * A last-round win with two hearts a side, as it stands when the cards
   * have flipped.
   */
  function DecisiveFinalRound(): GameState {
    Initial().(currentMatch := MAX_MATCHES, battlePhase := Flip, battleReady := true,
               placedCard := Some(Cowboy), rivalPlacedCard := Some(Zombie), hand := [])
  }

  /**
   * As written, declaring the final winner clears the shown outcome, which
   * is all the guard checks, so the same two cards are resolved again and the
   * loser loses a second heart for a single round. The corrected effect
   * leaves it at one.
   */
  lemma DoubleResolutionAsWritten()
    ensures ResolveEffectAsWritten(DecisiveFinalRound()).rivalHearts == 1
    ensures ResolveEffectAsWritten(DecisiveFinalRound()).finalWinner == Some(PlayerSide)
    ensures ResolveGuardAsWritten(ResolveEffectAsWritten(DecisiveFinalRound()))
    ensures ResolveEffectAsWritten(ResolveEffectAsWritten(DecisiveFinalRound())).rivalHearts == 0
    ensures ResolveEffect(ResolveEffect(DecisiveFinalRound())).rivalHearts == 1
  {
    ResolveEffectIdempotent(DecisiveFinalRound());
  }

  // ---------------------------------------------------------------------------
  // The screen, step by step

  class Battle {
    var hand: seq<Card>
    var selectedCard: Option<Card>
    var selectedIndex: Option<nat>
    var movingCard: Option<Card>
    var movingRivalCard: Option<Card>
    var placedCard: Option<Card>
    var rivalPlacedCard: Option<Card>
    var battleReady: bool
    var battlePhase: Phase
    var battleOutcome: Option<Outcome>
    var showOutcomeModal: bool
    var playerHearts: int
    var rivalHearts: int
    var currentMatch: int
    var finalWinner: Option<Side>
    var timeLeft: int

    function State(): GameState
      reads this
    {
      GameState(hand, selectedCard, selectedIndex, movingCard, movingRivalCard, placedCard, rivalPlacedCard,
        battleReady, battlePhase, battleOutcome, showOutcomeModal, playerHearts, rivalHearts, currentMatch,
        finalWinner, timeLeft)
    }

    predicate Ok()
      reads this
    {
      Valid(State())
    }

    constructor()
      ensures State() == Initial() && Ok()
    {
      hand := PLAYER_HAND;
      selectedCard, selectedIndex := None, None;
      movingCard, movingRivalCard := None, None;
      placedCard, rivalPlacedCard := None, None;
      battleReady, battlePhase := false, Idle;
      battleOutcome, showOutcomeModal := None, false;
      playerHearts, rivalHearts := INITIAL_HEARTS, INITIAL_HEARTS;
      currentMatch, finalWinner := 1, None;
      timeLeft := INITIAL_TIME;
    }

    method AdvanceToNextMatch()
      requires Ok()
      modifies this
      ensures Ok() && State() == Advance(old(State()))
    {
      if finalWinner.None? {
        ghost var expected := Advance(State());
        showOutcomeModal, battleOutcome := false, None;
        placedCard, rivalPlacedCard := None, None;
        selectedCard, selectedIndex := None, None;
        battleReady, battlePhase := false, Idle;
        currentMatch := Min(currentMatch + 1, MAX_MATCHES);
        assert State() == expected;
      }
    }

    method DeclareFinalWinner(winner: Side)
      modifies this
      ensures State() == Declare(old(State()), winner)
    {
      if finalWinner.Some? {
        return;
      }
      finalWinner := Some(winner);
      showOutcomeModal := false;
      battleOutcome := None;
    }

    /** The round-resolution timer, with the corrected guard. */
    method ResolveRound()
      requires Ok()
      modifies this
      ensures Ok() && State() == ResolveEffect(old(State()))
    {
      if battlePhase != Flip || placedCard.None? || rivalPlacedCard.None? || battleOutcome.Some? || finalWinner.Some? {
        return;
      }
      var r := Resolve(placedCard.value, rivalPlacedCard.value, playerHearts, rivalHearts, currentMatch);
      battleOutcome := Some(r.outcome);
      playerHearts := r.playerHearts;
      rivalHearts := r.rivalHearts;
      if r.winner.Some? {
        DeclareFinalWinner(r.winner.value);
      } else {
        showOutcomeModal := true;
      }
    }

    method WatchHearts()
      requires Ok()
      modifies this
      ensures Ok() && State() == HeartsWatch(old(State()))
    {
      if finalWinner.Some? {
        return;
      }
      if playerHearts <= 0 && rivalHearts <= 0 {
        return;
      }
      if playerHearts <= 0 {
        DeclareFinalWinner(RivalSide);
      } else if rivalHearts <= 0 {
        DeclareFinalWinner(PlayerSide);
      }
    }

    method WatchFinalDraw()
      requires Ok()
      modifies this
      ensures Ok() && State() == FinalDrawWatch(old(State()))
    {
      if finalWinner.Some? {
        return;
      }
      if currentMatch == MAX_MATCHES && battleOutcome == Some(Draw) && showOutcomeModal && playerHearts != rivalHearts {
        DeclareFinalWinner(Leader(playerHearts, rivalHearts));
      }
    }

    method CloseOutcome()
      requires Ok()
      modifies this
      ensures Ok() && State() == ResetTimer(old(State()))
    {
      if showOutcomeModal && battleOutcome.Some? && finalWinner.None? {
        AdvanceToNextMatch();
      }
    }

    method Tick()
      requires Ok()
      modifies this
      ensures Ok() && State() == Next(old(State()), TickStep)
    {
      timeLeft := if timeLeft > 0 then timeLeft - 1 else 0;
    }

    method SelectCard(card: Card, index: nat)
      requires Ok()
      modifies this
      ensures Ok() && State() == Select(old(State()), card, index)
    {
      selectedCard := Some(card);
      selectedIndex := Some(index);
    }

    method UseSelected()
      requires Ok()
      modifies this
      ensures Ok() && State() == Use(old(State()))
    {
      if selectedCard.None? || selectedIndex.None? {
        return;
      }
      FilterIndexSpec(hand, selectedIndex.value);
      hand := FilterIndex(hand, selectedIndex.value);
      movingCard := selectedCard;
      selectedCard := None;
    }

    method DismissSelection()
      requires Ok()
      modifies this
      ensures Ok() && State() == Dismiss(old(State()))
    {
      selectedCard := None;
    }

    method LandPlayerCard()
      requires Ok()
      modifies this
      ensures Ok() && State() == LandPlayer(old(State()))
    {
      if movingCard.Some? {
        placedCard := movingCard;
        movingCard := None;
      }
    }

    method SendRivalCard(card: Card)
      requires Ok()
      modifies this
      ensures Ok() && State() == RivalPick(old(State()), card)
    {
      movingRivalCard := Some(card);
    }

    method LandRivalCard()
      requires Ok()
      modifies this
      ensures Ok() && State() == LandRival(old(State()))
    {
      if movingRivalCard.Some? {
        rivalPlacedCard := movingRivalCard;
        movingRivalCard := None;
      }
    }

    method ArmBattle()
      requires Ok()
      modifies this
      ensures Ok() && State() == Placement(old(State()))
    {
      if placedCard.None? || rivalPlacedCard.None? {
        battleReady := false;
        battleOutcome := None;
        showOutcomeModal := false;
        return;
      }
      battleReady := true;
    }

    method StartShake()
      requires Ok()
      modifies this
      ensures Ok() && State() == Ready(old(State()))
    {
      if !battleReady {
        battlePhase := Idle;
        battleOutcome := None;
        showOutcomeModal := false;
        return;
      }
      battlePhase := Shake;
    }

    method FlipCards()
      requires Ok()
      modifies this
      ensures Ok() && State() == FlipTimer(old(State()))
    {
      if battlePhase == Shake {
        battlePhase := Flip;
      }
    }
  }
}
