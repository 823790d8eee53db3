/**
 * The static tables of the slot machine: the eight reel symbols, the eight
 * winning combinations and the payout multiplier of each (main.jsx).
 *
 * The source keys `PAYOUTS` by the string `finalReels.join('')`. Every symbol
 * is an emoji that is a single Unicode scalar value, so joining is injective
 * on reel triples (`JoinInjective`) and the table is keyed here by the triple
 * itself.
 */
module Symbols {

  /** One reel symbol. */
  type Glyph = char

  const Apple: Glyph := '\U{1F34E}'
  const Orange: Glyph := '\U{1F34A}'
  const Lemon: Glyph := '\U{1F34B}'
  const Grape: Glyph := '\U{1F347}'
  const Cherry: Glyph := '\U{1F352}'
  const Star: Glyph := '\U{2B50}'
  const Diamond: Glyph := '\U{1F48E}'
  const Bell: Glyph := '\U{1F514}'

  /** `SYMBOLS`, in the source's order; a reel draw is an index into it. */
  const SYMBOLS: seq<Glyph> := [Apple, Orange, Lemon, Grape, Cherry, Star, Diamond, Bell]

  /** What the three reels show, left to right. */
  datatype Reels = Reels(left: Glyph, middle: Glyph, right: Glyph)

  /** `reels.join('')`, the key the source looks up in `PAYOUTS`. */
  function Join(r: Reels): string {
    [r.left, r.middle, r.right]
  }

  /** The combination showing `g` on all three reels. */
  function Triple(g: Glyph): Reels {
    Reels(g, g, g)
  }

  /**
   * `WINNING_COMBINATIONS`; the list written out again inside `spin` has the
   * same eight entries in the same order, so both are this constant.
   */
  const WINNING_COMBINATIONS: seq<Reels> :=
    [Triple(Cherry), Triple(Lemon), Triple(Orange), Triple(Grape),
     Triple(Apple), Triple(Star), Triple(Diamond), Triple(Bell)]

  /** `PAYOUTS`: the multiplier of the bet paid for each winning combination. */
  const PAYOUTS: map<Reels, nat> :=
    map[Triple(Cherry) := 2, Triple(Lemon) := 2, Triple(Orange) := 2, Triple(Grape) := 2,
        Triple(Apple) := 3, Triple(Star) := 3, Triple(Diamond) := 3, Triple(Bell) := 3]

  /** A reel result whose three symbols are all drawn from `SYMBOLS`. */
  predicate IsReels(r: Reels) {
    r.left in SYMBOLS && r.middle in SYMBOLS && r.right in SYMBOLS
  }

  /** All three reels show the same symbol. */
  predicate AllEqual(r: Reels) {
    r.left == r.middle == r.right
  }

  /** The multiplier the source pays on a symbol shown three times. */
  function Multiplier(g: Glyph): nat {
    if g == Cherry || g == Lemon || g == Orange || g == Grape then 2 else 3
  }

  /**
   * Keying `PAYOUTS` by the triple is sound: with each symbol one Unicode
   * scalar (one `char` here), two triples join to the same key string only
   * when they are equal. How JavaScript encodes those scalars in UTF-16 is
   * not part of this model.
   */
  lemma JoinInjective(r: Reels, s: Reels)
    ensures Join(r) == Join(s) <==> r == s
  {
    if Join(r) == Join(s) {
      assert Join(r)[0] == Join(s)[0] && Join(r)[1] == Join(s)[1] && Join(r)[2] == Join(s)[2];
    }
  }

  /** The eight symbols are pairwise distinct. */
  lemma SymbolsDistinct()
    ensures |SYMBOLS| == 8
    ensures forall i, j :: 0 <= i < j < |SYMBOLS| ==> SYMBOLS[i] != SYMBOLS[j]
  {
  }

  /**
   * Every key of `PAYOUTS` is one symbol of `SYMBOLS` shown three times, and
   * its multiplier is 2 or 3, as `Multiplier` gives it.
   */
  lemma PayoutTableWellFormed()
    ensures forall r :: r in PAYOUTS ==>
      IsReels(r) && AllEqual(r) && PAYOUTS[r] == Multiplier(r.left) && 2 <= PAYOUTS[r] <= 3
  {
    forall r | r in PAYOUTS
      ensures IsReels(r) && AllEqual(r) && PAYOUTS[r] == Multiplier(r.left) && 2 <= PAYOUTS[r] <= 3
    {
      assert r in WINNING_COMBINATIONS;
    }
  }

  /** The winning combinations are exactly the keys of `PAYOUTS`. */
  lemma WinningCombinationsArePayoutKeys()
    ensures |WINNING_COMBINATIONS| == 8
    ensures forall i :: 0 <= i < |WINNING_COMBINATIONS| ==> WINNING_COMBINATIONS[i] in PAYOUTS
    ensures forall r :: r in PAYOUTS ==> r in WINNING_COMBINATIONS
  {
  }

  /** Each winning combination is made of symbols and has a multiplier of 2 or 3. */
  lemma WinningCombinationPays(i: nat)
    requires i < |WINNING_COMBINATIONS|
    ensures IsReels(WINNING_COMBINATIONS[i]) && WINNING_COMBINATIONS[i] in PAYOUTS
    ensures PAYOUTS[WINNING_COMBINATIONS[i]] == 2 || PAYOUTS[WINNING_COMBINATIONS[i]] == 3
  {
  }

  /** Every multiplier in the table is 2 or 3. */
  lemma MultiplierBounds(r: Reels)
    requires r in PAYOUTS
    ensures 2 <= PAYOUTS[r] <= 3
  {
  }

  /** A reel result has a payout exactly when all three reels agree. */
  lemma PayoutIffAllEqual(r: Reels)
    requires IsReels(r)
    ensures r in PAYOUTS <==> AllEqual(r)
    ensures r in PAYOUTS ==> PAYOUTS[r] == Multiplier(r.left)
  {
    if AllEqual(r) {
      assert r == Triple(r.left);
    }
  }
}
