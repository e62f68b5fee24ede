/**
 * The SuperMemo-2 scheduler of the `useSM2` composable: a deck of cards, the
 * due subset at a given instant, a cursor into that subset and a flag saying
 * whether the answer side is shown.
 *
 * Numbers follow the source with two explicit representation choices:
 * instants are integer milliseconds (the clock is a parameter `now`), and the
 * easiness factor is kept in fixed-point hundredths (2.5 is 250, the floor 1.3
 * is 130), which makes the source's update `0.1 - (5-q)(0.08 + (5-q)0.02)`
 * an exact integer expression.
 */
module Sm2 {
  import opened Optional
  import opened Seqs
  import JsMath

  /** One day in milliseconds, the unit of `interval`. */
  const DAY_MS: int := 24 * 60 * 60 * 1000
  /** Easiness of a new or reset card (2.5). */
  const INITIAL_EASINESS: int := 250
  /** Easiness never drops below this after a review (1.3). */
  const MIN_EASINESS: int := 130
  /** Ratings below this are failed reviews. */
  const PASSING_QUALITY: int := 3

  datatype Card = Card(
    id: string,
    front: string,
    back: string,
    category: string,
    tags: seq<string>,
    easiness: int,          // hundredths
    interval: int,          // days
    repetitions: int,       // consecutive successful reviews
    dueDate: int,           // ms
    createdAt: int,         // ms
    lastStudied: Option<int>)

  /** A card is due once its due date is at or before `now`. */
  predicate IsDue(c: Card, now: int) {
    c.dueDate <= now
  }

  /** The due test as the filter callback `(c) => c.dueDate <= today()`. */
  function DueAt(now: int): Card -> bool {
    c => IsDue(c, now)
  }

  /** `dueCards`: the cards due at `now`, in deck order. */
  function DueCards(cards: seq<Card>, now: int): seq<Card> {
    Filter(cards, DueAt(now))
  }

  /** The due list is exactly the order-preserving subsequence of due cards. */
  lemma DueCardsSpec(cards: seq<Card>, now: int)
    ensures IsSubsequence(DueCards(cards, now), cards)
    ensures forall i :: 0 <= i < |DueCards(cards, now)| ==> DueCards(cards, now)[i] in cards && IsDue(DueCards(cards, now)[i], now)
    ensures forall i :: 0 <= i < |cards| && IsDue(cards[i], now) ==> cards[i] in DueCards(cards, now)
    ensures forall c :: multiset(DueCards(cards, now))[c] == if IsDue(c, now) then multiset(cards)[c] else 0
  {
    FilterIsSubsequence(cards, DueAt(now));
    FilterCounts(cards, DueAt(now));
    FilterMembers(cards, DueAt(now));
  }

  /** Where in the deck the `k`-th due card lives (the object `dueCards[k]` aliases). */
  function DuePosition(cards: seq<Card>, now: int, k: nat): (j: nat)
    requires k < |DueCards(cards, now)|
    ensures j < |cards| && IsDue(cards[j], now)
    ensures cards[j] == DueCards(cards, now)[k]
    ensures |DueCards(cards[..j], now)| == k
  {
    FilterPosition(cards, DueAt(now), k)
  }

  /** `currentCard`: `dueCards[currentIndex]`, `None` where JavaScript yields `undefined`. */
  function CurrentCard(cards: seq<Card>, index: nat, now: int): (r: Option<Card>)
    ensures r.Some? <==> index < |DueCards(cards, now)|
    ensures r.Some? ==> r.value in cards && IsDue(r.value, now)
    ensures r.Some? ==> r.value == cards[DuePosition(cards, now, index)]
  {
    if index < |DueCards(cards, now)| then
      var j := DuePosition(cards, now, index);
      Some(DueCards(cards, now)[index])
    else None
  }

  /** The easiness change of a review of quality `q`, in hundredths. */
  function EasinessDelta(q: int): int {
    10 - (5 - q) * (8 + (5 - q) * 2)
  }

  /** `Math.round(n / 100)`: the nearest integer, halves rounded up. */
  function RoundHundredths(n: int): (r: int)
    ensures 100 * r - 50 <= n < 100 * r + 50
  {
    JsMath.RoundedQuotient(n, 100)
  }

  function Max(a: int, b: int): int {
    if a < b then b else a
  }

  /** The repetition count after a review. */
  function NextRepetitions(c: Card, quality: int): int {
    if quality < PASSING_QUALITY then 0 else c.repetitions + 1
  }

  /** The interval after a review; it uses the easiness from before the review. */
  function NextInterval(c: Card, quality: int): int {
    if quality < PASSING_QUALITY then 1
    else if c.repetitions + 1 == 1 then 1
    else if c.repetitions + 1 == 2 then 6
    else RoundHundredths(c.interval * c.easiness)
  }

  /** The easiness after a review, floored at 1.3. */
  function NextEasiness(easiness: int, quality: int): int {
    Max(MIN_EASINESS, easiness + EasinessDelta(quality))
  }

  /**
   * The SM-2 update rule `updateCard(card, quality)`: the scheduling fields
   * after a review of quality `quality` at instant `now`; nothing else changes.
   */
  function Reviewed(c: Card, quality: int, now: int): Card {
    var interval := NextInterval(c, quality);
    c.(repetitions := NextRepetitions(c, quality),
       interval := interval,
       easiness := NextEasiness(c.easiness, quality),
       dueDate := now + interval * DAY_MS)
  }

  /** The easiness deltas for the six ratings, exactly. */
  lemma EasinessDeltaTable()
    ensures EasinessDelta(5) == 10 && EasinessDelta(4) == 0 && EasinessDelta(3) == -14
    ensures EasinessDelta(2) == -32 && EasinessDelta(1) == -54 && EasinessDelta(0) == -80
  {
  }

  /**
   * Whatever integer rating is passed (the source does not check it), the
   * delta added before the floor is at most 0.18: it is `18 - 2(q - 7)^2`.
   */
  lemma EasinessGrowthBounded(q: int)
    ensures EasinessDelta(q) <= 18
    ensures EasinessDelta(q) == 18 <==> q == 7
  {
    var d := q - 7;
    assert EasinessDelta(q) == 18 - 2 * (d * d);
    assert d * d >= 0;
    assert d * d == 0 <==> d == 0;
  }

  /**
   * What a review does to a card's easiness: at most 0.18 more than before,
   * unless the floor lifts it, and a card already at the floor or above gains
   * at most 0.18.  A card below 1.12 (reachable only through an unchecked edit
   * or import) can gain more, because the floor lifts it to 1.3.
   */
  lemma ReviewGrowthBounded(c: Card, quality: int, now: int)
    ensures Reviewed(c, quality, now).easiness <= Max(c.easiness + 18, MIN_EASINESS)
    ensures c.easiness >= MIN_EASINESS ==> Reviewed(c, quality, now).easiness - c.easiness <= 18
    ensures c.easiness < MIN_EASINESS - 18 ==> Reviewed(c, quality, now).easiness - c.easiness > 18
  {
    EasinessGrowthBounded(quality);
  }

  /** A failed review forgets the card: repetitions 0, interval 1, whatever the prior state. */
  lemma FailedReviewResets(c: Card, quality: int, now: int)
    requires quality < PASSING_QUALITY
    ensures Reviewed(c, quality, now).repetitions == 0
    ensures Reviewed(c, quality, now).interval == 1
  {
  }

  /** A successful review counts one more repetition; the interval goes 1, 6, then grows by easiness. */
  lemma SuccessfulReviewProgresses(c: Card, quality: int, now: int)
    requires quality >= PASSING_QUALITY
    ensures Reviewed(c, quality, now).repetitions == c.repetitions + 1
    ensures c.repetitions == 0 ==> Reviewed(c, quality, now).interval == 1
    ensures c.repetitions == 1 ==> Reviewed(c, quality, now).interval == 6
    ensures c.repetitions != 0 && c.repetitions != 1 ==>
      100 * Reviewed(c, quality, now).interval - 50 <= c.interval * c.easiness < 100 * Reviewed(c, quality, now).interval + 50
  {
  }

  /** The floor holds: from 1.3 or more, easiness stays at 1.3 or more; 5 adds 0.1, 4 keeps it. */
  lemma EasinessFloorKept(c: Card, quality: int, now: int)
    ensures Reviewed(c, quality, now).easiness >= MIN_EASINESS
    ensures c.easiness >= MIN_EASINESS && quality == 4 ==> Reviewed(c, quality, now).easiness == c.easiness
    ensures quality == 5 && c.easiness + 10 >= MIN_EASINESS ==> Reviewed(c, quality, now).easiness == c.easiness + 10
    ensures quality < 4 && c.easiness > MIN_EASINESS ==> Reviewed(c, quality, now).easiness < c.easiness
  {
  }

  /**
   * The due date is the review instant plus `interval` whole days, and the
   * four scheduling fields are the only ones a review writes.
   */
  lemma DueDateFollowsInterval(c: Card, quality: int, now: int)
    ensures Reviewed(c, quality, now).dueDate == now + Reviewed(c, quality, now).interval * DAY_MS
    ensures Reviewed(c, quality, now).id == c.id && Reviewed(c, quality, now).front == c.front
    ensures Reviewed(c, quality, now).back == c.back && Reviewed(c, quality, now).lastStudied == c.lastStudied
    ensures Reviewed(c, quality, now).(repetitions := c.repetitions, interval := c.interval,
                                       easiness := c.easiness, dueDate := c.dueDate) == c
  {
  }

  /**
   * A card whose scheduling fields are consistent: easiness at the floor or
   * above, non-negative counters, and a positive interval once it has been
   * learned.  New, reset and reviewed cards are all sound.
   */
  predicate Sound(c: Card) {
    && c.easiness >= MIN_EASINESS
    && c.interval >= 0
    && c.repetitions >= 0
    && (c.repetitions > 0 ==> c.interval >= 1)
  }

  /** Reviewing a sound card yields a sound card that is scheduled at least a day ahead, so no longer due. */
  lemma ReviewKeepsSound(c: Card, quality: int, now: int)
    requires Sound(c)
    ensures Sound(Reviewed(c, quality, now))
    ensures Reviewed(c, quality, now).interval >= 1
    ensures !IsDue(Reviewed(c, quality, now), now)
  {
    var r := Reviewed(c, quality, now);
    if quality >= PASSING_QUALITY && c.repetitions >= 2 {
      assert c.interval * c.easiness >= 1 * c.easiness by {
        assert c.interval >= 1 && c.easiness >= 0;
        assert (c.interval - 1) * c.easiness >= 0;
      }
      assert r.interval >= 1;
    }
    assert r.interval * DAY_MS >= DAY_MS;
  }

  /**
   * Three successful reviews of a never-studied card give the intervals
   * 1, 6 and `round(6 * easiness)`, the easiness being the one after the second review.
   */
  lemma IntervalSequence(c: Card, q1: int, q2: int, q3: int, t1: int, t2: int, t3: int)
    requires c.repetitions == 0
    requires q1 >= PASSING_QUALITY && q2 >= PASSING_QUALITY && q3 >= PASSING_QUALITY
    ensures var c1 := Reviewed(c, q1, t1);
            var c2 := Reviewed(c1, q2, t2);
            var c3 := Reviewed(c2, q3, t3);
            && c1.interval == 1 && c2.interval == 6
            && c3.interval == RoundHundredths(6 * c2.easiness)
            && c3.repetitions == 3
  {
  }

  /**
   * A new card rated 5, 5, then 2: repetitions 1, 2, 0; intervals 1, 6, 1;
   * easiness 2.6, 2.7, then 2.38.
   */
  lemma ReviewScenario(c: Card, t1: int, t2: int, t3: int)
    requires c.easiness == INITIAL_EASINESS && c.interval == 0 && c.repetitions == 0
    ensures var c1 := Reviewed(c, 5, t1);
            var c2 := Reviewed(c1, 5, t2);
            var c3 := Reviewed(c2, 2, t3);
            && c1.repetitions == 1 && c1.interval == 1 && c1.easiness == 260
            && c2.repetitions == 2 && c2.interval == 6 && c2.easiness == 270
            && c3.repetitions == 0 && c3.interval == 1 && c3.easiness == 238
  {
  }

  /**
   * Rating the first of three due cards takes it out of the due list, so the
   * cursor, which `rate` moves to 1, lands on the third card: the second one
   * waits for the wrap-around.
   */
  lemma RateSkipsOverNextCard(a: Card, b: Card, c: Card, quality: int, now: int)
    requires Sound(a) && IsDue(a, now) && IsDue(b, now) && IsDue(c, now)
    ensures var after := [a, b, c][0 := Reviewed(a, quality, now)];
            && DueCards(after, now) == [b, c]
            && CurrentCard(after, 1, now) == Some(c)
  {
    ReviewKeepsSound(a, quality, now);
    var after := [a, b, c][0 := Reviewed(a, quality, now)];
    assert after == [Reviewed(a, quality, now)] + [b, c];
    FilterAppend([Reviewed(a, quality, now)], [b, c], DueAt(now));
    assert [b, c] == [b] + [c];
    FilterAppend([b], [c], DueAt(now));
    assert Filter([b], DueAt(now)) == [b] + Filter([], DueAt(now));
    assert Filter([c], DueAt(now)) == [c] + Filter([], DueAt(now));
    assert Filter([Reviewed(a, quality, now)], DueAt(now)) == Filter([], DueAt(now));
  }

  /**
   * The composable's state: a deck of cards (the `initialCards` ref), the
   * cursor `currentIndex` into the due list and the `showBack` flag.
   */
  class Deck {
    var cards: seq<Card>
    var currentIndex: nat
    var showBack: bool

    constructor (initialCards: seq<Card>)
      ensures cards == initialCards && currentIndex == 0 && !showBack
    {
      cards := initialCards;
      currentIndex := 0;
      showBack := false;
    }

    /** `updateCard(card, quality)` on the card at position `j`, field by field as the source does. */
    method UpdateCard(j: nat, quality: int, now: int)
      requires j < |cards|
      modifies this
      ensures cards == old(cards)[j := Reviewed(old(cards)[j], quality, now)]
      ensures currentIndex == old(currentIndex) && showBack == old(showBack)
    {
      var card := cards[j];
      if quality < PASSING_QUALITY {
        card := card.(repetitions := 0);
        card := card.(interval := 1);
      } else {
        card := card.(repetitions := card.repetitions + 1);
        if card.repetitions == 1 {
          card := card.(interval := 1);
        } else if card.repetitions == 2 {
          card := card.(interval := 6);
        } else {
          card := card.(interval := RoundHundredths(card.interval * card.easiness));
        }
      }
      card := card.(easiness := card.easiness + EasinessDelta(quality));
      card := card.(easiness := Max(MIN_EASINESS, card.easiness));
      card := card.(dueDate := now + card.interval * DAY_MS);
      cards := cards[j := card];
    }

    /**
     * `rate(quality)`: review the current card, hide the answer, and move the
     * cursor on within the recomputed due list or wrap it to 0.  The source has
     * no guard, so a current card must exist.
     */
    method Rate(quality: int, now: int)
      requires CurrentCard(cards, currentIndex, now).Some?
      modifies this
      ensures var j := DuePosition(old(cards), now, old(currentIndex));
              cards == old(cards)[j := Reviewed(old(cards)[j], quality, now)]
      ensures !showBack
      ensures currentIndex == if old(currentIndex) + 1 < |DueCards(cards, now)| then old(currentIndex) + 1 else 0
    {
      var j := DuePosition(cards, now, currentIndex);
      UpdateCard(j, quality, now);
      showBack := false;
      if currentIndex + 1 < |DueCards(cards, now)| {
        currentIndex := currentIndex + 1;
      } else {
        currentIndex := 0;
      }
    }

    /** `toggleShowBack()`: flip the answer flag, nothing else. */
    method ToggleShowBack()
      modifies this
      ensures showBack == !old(showBack)
      ensures cards == old(cards) && currentIndex == old(currentIndex)
    {
      showBack := !showBack;
    }
  }

  /** Toggling twice restores the flag (and the rest of the deck). */
  method ToggleTwiceRestores(d: Deck)
    modifies d
    ensures d.showBack == old(d.showBack)
    ensures d.cards == old(d.cards) && d.currentIndex == old(d.currentIndex)
  {
    d.ToggleShowBack();
    d.ToggleShowBack();
  }
}
