/**
 * The spin outcome engine of `spin` (main.jsx): the forced win or forced
 * loss decision, the choice of the final reels and the payout.
 *
 * `Math.random()` is replaced by injected draws:
 *  - `roll` is `Math.floor(Math.random() * 100)`; since the win probability
 *    is a whole number, `Math.random() * 100 < winProbability` holds exactly
 *    when `roll < winProbability`;
 *  - `winPick` is the index `Math.floor(Math.random() * 8)` into the
 *    winning combinations;
 *  - `reelDraws` are the symbols `SYMBOLS[Math.floor(Math.random() * SYMBOLS.length)]`
 *    drawn by the forced-loss loop, three per attempt, in the order drawn.
 */
module Engine {
  import opened Wrappers
  import opened Symbols

  /** The forced-loss loop breaks once `attempts > MAX_ATTEMPTS`. */
  const MAX_ATTEMPTS: nat := 50

  /** So it draws at most this many candidate triples. */
  const MAX_TRIPLES: nat := MAX_ATTEMPTS + 1

  type WinDraw = i: nat | i < 8
  type Roll = i: nat | i < 100

  datatype Draws = Draws(roll: Roll, winPick: WinDraw, reelDraws: seq<Glyph>)

  /** The injected source supplies every reel draw the loop can ask for. */
  predicate EnoughDraws(reelDraws: seq<Glyph>) {
    3 * MAX_TRIPLES <= |reelDraws|
  }

  /** Each reel draw is an element of `SYMBOLS`, as an in-range index into it gives. */
  predicate DrawnFromSymbols(reelDraws: seq<Glyph>) {
    forall i :: 0 <= i < |reelDraws| ==> reelDraws[i] in SYMBOLS
  }

  /** `randomValue < winProbability`: the spin is a forced win. */
  predicate ShouldWin(roll: Roll, winProbability: int) {
    roll < winProbability
  }

  /** The triple drawn at attempt number `k + 1` of the forced-loss loop. */
  function Candidate(reelDraws: seq<Glyph>, k: nat): (r: Reels)
    requires 3 * k + 3 <= |reelDraws|
  {
    Reels(reelDraws[3 * k], reelDraws[3 * k + 1], reelDraws[3 * k + 2])
  }

  /**
   * Where the forced-loss `do ... while` stops when attempt `k + 1` is next:
   * the final triple and the final value of `attempts`. Every candidate it
   * passed over had a payout; the one it stops at has none, unless the
   * attempt count has gone past `MAX_ATTEMPTS`.
   */
  function LossSearch(reelDraws: seq<Glyph>, k: nat): (r: (Reels, nat))
    requires EnoughDraws(reelDraws) && k < MAX_TRIPLES
    ensures k < r.1 <= MAX_TRIPLES
    ensures r.0 == Candidate(reelDraws, r.1 - 1)
    ensures r.1 <= MAX_ATTEMPTS ==> r.0 !in PAYOUTS
    decreases MAX_TRIPLES - k
  {
    var c := Candidate(reelDraws, k);
    if k + 1 > MAX_ATTEMPTS || c !in PAYOUTS then (c, k + 1)
    else LossSearch(reelDraws, k + 1)
  }

  /** Every candidate triple is made of symbols from `SYMBOLS`. */
  lemma CandidateIsReels(reelDraws: seq<Glyph>, k: nat)
    requires 3 * k + 3 <= |reelDraws| && DrawnFromSymbols(reelDraws)
    ensures IsReels(Candidate(reelDraws, k))
  {
  }

  /** One turn of the loop: attempt `k + 1` either stops the search or passes it on to attempt `k + 2`. */
  lemma LossSearchStep(reelDraws: seq<Glyph>, k: nat, c: Reels)
    requires EnoughDraws(reelDraws) && k < MAX_TRIPLES && c == Candidate(reelDraws, k)
    ensures k + 1 > MAX_ATTEMPTS || c !in PAYOUTS ==> LossSearch(reelDraws, k) == (c, k + 1)
    ensures k + 1 <= MAX_ATTEMPTS && c in PAYOUTS ==> LossSearch(reelDraws, k) == LossSearch(reelDraws, k + 1)
  {
  }

  /** Every candidate the loop passed over before stopping had a payout. */
  lemma {:induction false} LossSearchRejectsOnlyPaying(reelDraws: seq<Glyph>, k: nat, j: nat)
    requires EnoughDraws(reelDraws) && k < MAX_TRIPLES
    requires k <= j < LossSearch(reelDraws, k).1 - 1
    ensures Candidate(reelDraws, j) in PAYOUTS
    decreases MAX_TRIPLES - k
  {
    LossSearchStep(reelDraws, k, Candidate(reelDraws, k));
    if j > k {
      LossSearchRejectsOnlyPaying(reelDraws, k + 1, j);
    }
  }

  /** The loop stops within `MAX_TRIPLES` attempts on a triple of symbols that does not pay, or after its last attempt. */
  lemma LossSearchStops(reelDraws: seq<Glyph>)
    requires EnoughDraws(reelDraws) && DrawnFromSymbols(reelDraws)
    ensures var r := LossSearch(reelDraws, 0);
      1 <= r.1 <= MAX_TRIPLES && IsReels(r.0) && (r.0 !in PAYOUTS || r.1 > MAX_ATTEMPTS)
  {
    CandidateIsReels(reelDraws, LossSearch(reelDraws, 0).1 - 1);
  }

  /** The forced-loss loop of `spin`, run on the injected reel draws. */
  method DrawLosingReels(reelDraws: seq<Glyph>) returns (finalReels: Reels, attempts: nat)
    requires EnoughDraws(reelDraws)
    ensures (finalReels, attempts) == LossSearch(reelDraws, 0)
    ensures 1 <= attempts <= MAX_TRIPLES
    ensures finalReels !in PAYOUTS || attempts > MAX_ATTEMPTS
  {
    attempts := 0;
    while true
      invariant attempts <= MAX_ATTEMPTS
      invariant LossSearch(reelDraws, attempts) == LossSearch(reelDraws, 0)
      decreases MAX_TRIPLES - attempts
    {
      finalReels := Candidate(reelDraws, attempts);
      LossSearchStep(reelDraws, attempts, finalReels);
      attempts := attempts + 1;
      if attempts > MAX_ATTEMPTS {
        break;
      }
      if finalReels !in PAYOUTS {
        break;
      }
    }
  }

  /** The multiplier `PAYOUTS[combination]`, if the key is present. */
  function Payout(reels: Reels): (r: Option<nat>)
    ensures r.Some? <==> reels in PAYOUTS
    ensures r.Some? ==> r.value == PAYOUTS[reels]
  {
    if reels in PAYOUTS then Some(PAYOUTS[reels]) else None
  }

  /** The reels `spin` shows once the animation stops. */
  function FinalReels(winProbability: int, d: Draws): Reels
    requires EnoughDraws(d.reelDraws)
  {
    if ShouldWin(d.roll, winProbability) then WINNING_COMBINATIONS[d.winPick]
    else LossSearch(d.reelDraws, 0).0
  }

  /** What one press of the spin button does to the balance. */
  datatype SpinResult =
    | InsufficientChips
    | Spun(newChips: int, reels: Reels, winAmount: int, finalChips: int, isWin: bool)

  /**
   * Deduct the bet, then credit `bet * multiplier` when `if (payout)` holds
   * for the final reels.
   */
  function Settle(chips: int, bet: int, reels: Reels): SpinResult {
    var newChips := chips - bet;
    var payout := Payout(reels);
    if payout.Some? && payout.value != 0 then
      Spun(newChips, reels, bet * payout.value, newChips + bet * payout.value, true)
    else
      Spun(newChips, reels, 0, newChips, false)
  }

  /**
   * The spin as one atomic step: refuse a bet the balance cannot cover,
   * otherwise choose the final reels and settle the bet on them.
   */
  function SpinOutcome(chips: int, bet: int, winProbability: int, d: Draws): SpinResult
    requires EnoughDraws(d.reelDraws)
  {
    if chips < bet then InsufficientChips
    else Settle(chips, bet, FinalReels(winProbability, d))
  }

  /**
   * Settling a covered, positive bet on any reels: the deducted balance is
   * non-negative; the spin is a win exactly when the reels have a payout,
   * and then the balance ends at `newChips + bet * multiplier`, above the
   * balance before the spin; otherwise it ends at `newChips`.
   */
  lemma SettleBalance(chips: int, bet: int, reels: Reels)
    requires 1 <= bet <= chips
    ensures var o := Settle(chips, bet, reels);
      && o.Spun? && o.reels == reels
      && o.newChips == chips - bet >= 0
      && o.finalChips >= 0
      && (o.isWin <==> reels in PAYOUTS)
      && (o.isWin ==> o.winAmount == bet * PAYOUTS[reels] && o.finalChips == o.newChips + o.winAmount > chips)
      && (!o.isWin ==> o.winAmount == 0 && o.finalChips == o.newChips)
  {
    if reels in PAYOUTS {
      var m := PAYOUTS[reels];
      MultiplierBounds(reels);
      assert bet * m >= bet * 2;
    }
  }

  /** A spin is refused exactly when the balance cannot cover the bet. */
  lemma SpinGuard(chips: int, bet: int, winProbability: int, d: Draws)
    requires EnoughDraws(d.reelDraws)
    ensures SpinOutcome(chips, bet, winProbability, d).InsufficientChips? <==> chips < bet
  {
  }

  /** Every symbol on the final reels is one of `SYMBOLS`. */
  lemma FinalReelsAreSymbols(winProbability: int, d: Draws)
    requires EnoughDraws(d.reelDraws) && DrawnFromSymbols(d.reelDraws)
    ensures IsReels(FinalReels(winProbability, d))
  {
    if ShouldWin(d.roll, winProbability) {
      WinningCombinationPays(d.winPick);
    } else {
      LossSearchStops(d.reelDraws);
    }
  }

  /**
   * Balance arithmetic of an accepted spin with a positive bet: as
   * `SettleBalance` states it, on the reels `FinalReels` chooses.
   */
  lemma SpinBalance(chips: int, bet: int, winProbability: int, d: Draws)
    requires EnoughDraws(d.reelDraws) && 1 <= bet <= chips
    ensures var o := SpinOutcome(chips, bet, winProbability, d);
      && o.Spun?
      && o.reels == FinalReels(winProbability, d)
      && o.newChips == chips - bet >= 0
      && o.finalChips >= 0
      && (o.isWin <==> o.reels in PAYOUTS)
      && (o.isWin ==> o.winAmount == bet * PAYOUTS[o.reels] && o.finalChips == o.newChips + o.winAmount > chips)
      && (!o.isWin ==> o.finalChips == o.newChips)
  {
    SettleBalance(chips, bet, FinalReels(winProbability, d));
  }

  /**
   * A forced win shows the picked winning combination, is paid, and pays
   * twice or three times the bet.
   */
  lemma ForcedWin(chips: int, bet: int, winProbability: int, d: Draws)
    requires EnoughDraws(d.reelDraws) && bet <= chips && ShouldWin(d.roll, winProbability)
    ensures var o := SpinOutcome(chips, bet, winProbability, d);
      && o.Spun?
      && o.reels == WINNING_COMBINATIONS[d.winPick]
      && o.reels in PAYOUTS
      && o.isWin
      && (o.winAmount == 2 * bet || o.winAmount == 3 * bet)
  {
    WinningCombinationPays(d.winPick);
  }

  /**
   * A forced loss whose loop found a non-paying triple within
   * `MAX_ATTEMPTS` attempts is a loss that leaves the deducted balance.
   */
  lemma ForcedLoss(chips: int, bet: int, winProbability: int, d: Draws)
    requires EnoughDraws(d.reelDraws) && bet <= chips && !ShouldWin(d.roll, winProbability)
    requires LossSearch(d.reelDraws, 0).1 <= MAX_ATTEMPTS
    ensures var o := SpinOutcome(chips, bet, winProbability, d);
      o.Spun? && !o.isWin && o.reels !in PAYOUTS && o.finalChips == chips - bet
  {
  }

  /**
   * The documented fallback of the forced-loss loop: when every one of the
   * candidate triples from attempt `k + 1` on pays, the loop gives up after
   * its last attempt and keeps that attempt's paying triple.
   */
  lemma {:induction false} LossSearchAllPaying(reelDraws: seq<Glyph>, k: nat)
    requires EnoughDraws(reelDraws) && k < MAX_TRIPLES
    requires forall j :: k <= j < MAX_TRIPLES ==> Candidate(reelDraws, j) in PAYOUTS
    ensures LossSearch(reelDraws, k) == (Candidate(reelDraws, MAX_ATTEMPTS), MAX_TRIPLES)
    ensures LossSearch(reelDraws, k).0 in PAYOUTS
    decreases MAX_TRIPLES - k
  {
    LossSearchStep(reelDraws, k, Candidate(reelDraws, k));
    if k < MAX_ATTEMPTS {
      LossSearchAllPaying(reelDraws, k + 1);
    }
  }

  /** Reel draws that always pick the first symbol, so every candidate is three apples. */
  const AllApples: seq<Glyph> := seq(3 * MAX_TRIPLES, _ => Apple)

  /** With those draws every forced-loss attempt pays, so the loop ends on a paying triple. */
  lemma LossSearchFallback()
    ensures LossSearch(AllApples, 0) == (Triple(Apple), MAX_TRIPLES)
  {
    forall j | 0 <= j < MAX_TRIPLES
      ensures Candidate(AllApples, j) in PAYOUTS
    {
      assert Candidate(AllApples, j) == Triple(Apple);
    }
    LossSearchAllPaying(AllApples, 0);
    assert Candidate(AllApples, MAX_ATTEMPTS) == Triple(Apple);
  }

  /** So a spin on the forced-loss path can still be paid as a win. */
  lemma ForcedLossFallbackCanWin(chips: int, bet: int, winProbability: int, roll: Roll)
    requires bet <= chips && !ShouldWin(roll, winProbability)
    ensures SpinOutcome(chips, bet, winProbability, Draws(roll, 0, AllApples)).isWin
  {
    LossSearchFallback();
  }
}
