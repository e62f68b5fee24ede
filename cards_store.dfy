/**
 * The flashcard store: the card collection, the cursor into the due list, the
 * answer flag, the current study session and the log of finished sessions.
 * It applies the same SM-2 rule as the composable (module Sm2), and in
 * addition stamps `lastStudied` and counts reviews in the active session.
 *
 * Persistence (`saveCards`, `loadCards`, `getSessions`) is an external
 * key-value store: the constructor receives what was loaded, and `sessionLog`
 * holds the session snapshots this store appends to the saved history.
 */
module CardsStore {
  import opened Optional
  import opened Seqs
  import opened Sm2
  import opened Importing

  datatype StudySession = StudySession(
    startTime: Option<int>,
    endTime: Option<int>,
    cardsStudied: nat,
    correctAnswers: nat,
    isActive: bool)

  /** The session record before any session was started. */
  const IDLE_SESSION: StudySession := StudySession(None, None, 0, 0, false)

  /** A session never counts more correct answers than reviews. */
  predicate Consistent(s: StudySession) {
    s.correctAnswers <= s.cardsStudied
  }

  /** The session counters after one review of quality `quality`. */
  function AfterReview(s: StudySession, quality: int): StudySession {
    if s.isActive then
      s.(cardsStudied := s.cardsStudied + 1,
         correctAnswers := if quality >= PASSING_QUALITY then s.correctAnswers + 1 else s.correctAnswers)
    else s
  }

  /** The session after a run of reviews with the given ratings, in order. */
  function Tally(s: StudySession, qualities: seq<int>): StudySession
    decreases |qualities|
  {
    if qualities == [] then s else Tally(AfterReview(s, qualities[0]), qualities[1..])
  }

  function Passing(): int -> bool {
    q => q >= PASSING_QUALITY
  }

  /**
   * Session accounting: in an active session, N reviews of which k pass add
   * N to `cardsStudied` and k to `correctAnswers`; outside a session nothing
   * is counted.  Consistency is kept either way.
   */
  lemma {:induction false} SessionAccounting(s: StudySession, qualities: seq<int>)
    ensures s.isActive ==>
      Tally(s, qualities) == s.(cardsStudied := s.cardsStudied + |qualities|,
                                correctAnswers := s.correctAnswers + |Filter(qualities, Passing())|)
    ensures !s.isActive ==> Tally(s, qualities) == s
    ensures Consistent(s) ==> Consistent(Tally(s, qualities))
    decreases |qualities|
  {
    if qualities != [] {
      SessionAccounting(AfterReview(s, qualities[0]), qualities[1..]);
      assert qualities == [qualities[0]] + qualities[1..];
      FilterAppend([qualities[0]], qualities[1..], Passing());
      assert Filter([qualities[0]], Passing()) ==
        (if qualities[0] >= PASSING_QUALITY then [qualities[0]] else []) + Filter([], Passing());
    }
  }

  /** The immutable record appended to the session history when a session ends. */
  function Snapshot(s: StudySession, now: int): StudySession {
    s.(endTime := Some(now), isActive := false)
  }

  /** The input of `addCard`: category and tags may be missing. */
  datatype CardData = CardData(front: string, back: string, category: Option<string>, tags: Option<seq<string>>)

  const DEFAULT_CATEGORY: string := "general"

  /** `cardData.category || 'general'`: a missing or empty category becomes the default. */
  function CategoryOrDefault(category: Option<string>): string {
    if category.Some? && category.value != "" then category.value else DEFAULT_CATEGORY
  }

  /** The card `addCard` builds: due now, never studied. */
  function NewCard(id: string, data: CardData, now: int): Card {
    Card(id, data.front, data.back, CategoryOrDefault(data.category),
         if data.tags.Some? then data.tags.value else [],
         INITIAL_EASINESS, 0, 0, now, now, None)
  }

  /** A new card is sound, immediately due, and carries the caller's texts. */
  lemma NewCardIsDue(id: string, data: CardData, now: int)
    ensures Sound(NewCard(id, data, now)) && IsDue(NewCard(id, data, now), now)
    ensures NewCard(id, data, now).easiness == INITIAL_EASINESS
    ensures NewCard(id, data, now).interval == 0 && NewCard(id, data, now).repetitions == 0
    ensures NewCard(id, data, now).lastStudied == None
    ensures NewCard(id, data, now).front == data.front && NewCard(id, data, now).back == data.back
  {
  }

  /** The three vocabulary cards seeded when nothing was saved. */
  function DefaultCards(now: int): seq<Card> {
    [ Card("1", "こんにちは", "Bonjour", "salutations", ["basique"], INITIAL_EASINESS, 0, 0, now, now, None),
      Card("2", "ありがとう", "Merci", "salutations", ["basique"], INITIAL_EASINESS, 0, 0, now, now, None),
      Card("3", "さようなら", "Au revoir", "salutations", ["basique"], INITIAL_EASINESS, 0, 0, now, now, None) ]
  }

  /** The store's `updateCard`: the SM-2 rule of module Sm2, plus `lastStudied = now`. */
  function Studied(c: Card, quality: int, now: int): Card {
    Reviewed(c, quality, now).(lastStudied := Some(now))
  }

  /**
   * The store's rule and the composable's rule agree on repetitions,
   * interval, easiness and due date; the store's only stamps `lastStudied`.
   */
  lemma StoreRuleAgrees(c: Card, quality: int, now: int)
    ensures var s := Studied(c, quality, now);
            var r := Reviewed(c, quality, now);
      && s.repetitions == r.repetitions && s.interval == r.interval
      && s.easiness == r.easiness && s.dueDate == r.dueDate
      && s.lastStudied == Some(now)
      && s.(lastStudied := c.lastStudied) == r
  {
  }

  /** The card fields `updateCardData` may overwrite (`{ ...card, ...cardData }`); `None` keeps a field. */
  datatype CardPatch = CardPatch(
    id: Option<string>,
    front: Option<string>,
    back: Option<string>,
    category: Option<string>,
    tags: Option<seq<string>>,
    easiness: Option<int>,
    interval: Option<int>,
    repetitions: Option<int>,
    dueDate: Option<int>,
    createdAt: Option<int>,
    lastStudied: Option<Option<int>>)

  function Pick<T>(given: Option<T>, kept: T): T {
    if given.Some? then given.value else kept
  }

  /** The object spread `{ ...card, ...cardData }`. */
  function Merge(c: Card, p: CardPatch): Card {
    Card(Pick(p.id, c.id), Pick(p.front, c.front), Pick(p.back, c.back),
         Pick(p.category, c.category), Pick(p.tags, c.tags),
         Pick(p.easiness, c.easiness), Pick(p.interval, c.interval),
         Pick(p.repetitions, c.repetitions), Pick(p.dueDate, c.dueDate),
         Pick(p.createdAt, c.createdAt), Pick(p.lastStudied, c.lastStudied))
  }

  /** Merging the same patch twice is merging it once; an empty patch changes nothing. */
  lemma MergeIdempotent(c: Card, p: CardPatch)
    ensures Merge(Merge(c, p), p) == Merge(c, p)
    ensures Merge(c, CardPatch(None, None, None, None, None, None, None, None, None, None, None)) == c
  {
  }

  /** The scheduling fields `resetCard` restores; content and creation date stay. */
  function ResetSchedule(c: Card, now: int): Card {
    c.(easiness := INITIAL_EASINESS, interval := 0, repetitions := 0, dueDate := now, lastStudied := None)
  }

  /**
   * A reset card is the card `addCard` would build now from the same content,
   * keeping its id and creation date.
   */
  lemma ResetIsLikeNew(c: Card, now: int)
    requires c.category != ""
    ensures ResetSchedule(c, now) ==
      NewCard(c.id, CardData(c.front, c.back, Some(c.category), Some(c.tags)), now).(createdAt := c.createdAt)
    ensures Sound(ResetSchedule(c, now)) && IsDue(ResetSchedule(c, now), now)
  {
  }

  /** The lookup callback `card => card.id === cardId`. */
  function HasId(id: string): Card -> bool {
    (c: Card) => c.id == id
  }

  function CardId(c: Card): string {
    c.id
  }

  /** The cards of `imported` whose id is not already in `existing`, in import order. */
  function NewCardsOf(existing: seq<Card>, imported: seq<Card>): seq<Card> {
    WithNewKeys(existing, imported, CardId)
  }

  /** Sum of easiness over the collection (the `reduce` of `statistics`). */
  function SumEasiness(cards: seq<Card>): int {
    if cards == [] then 0 else cards[0].easiness + SumEasiness(cards[1..])
  }

  /** `statistics.averageEasiness`, in hundredths; 0 for an empty collection. */
  function AverageEasiness(cards: seq<Card>): real {
    if |cards| > 0 then (SumEasiness(cards) as real) / (|cards| as real) else 0.0
  }

  lemma {:induction false} SumEasinessBounds(cards: seq<Card>, lo: int, hi: int)
    requires forall i :: 0 <= i < |cards| ==> lo <= cards[i].easiness <= hi
    ensures lo * |cards| <= SumEasiness(cards) <= hi * |cards|
  {
    if cards != [] {
      SumEasinessBounds(cards[1..], lo, hi);
    }
  }

  /** The average lies between the smallest and largest easiness, so it respects the 1.3 floor. */
  lemma AverageEasinessBounds(cards: seq<Card>, lo: int, hi: int)
    requires cards != []
    requires forall i :: 0 <= i < |cards| ==> lo <= cards[i].easiness <= hi
    ensures lo as real <= AverageEasiness(cards) <= hi as real
  {
    SumEasinessBounds(cards, lo, hi);
    CastProduct(lo, |cards|);
    CastProduct(hi, |cards|);
    QuotientBounds(SumEasiness(cards) as real, |cards| as real, lo as real, hi as real);
  }

  lemma CastProduct(a: int, b: int)
    ensures (a * b) as real == (a as real) * (b as real)
  {
  }

  lemma QuotientBounds(x: real, n: real, lo: real, hi: real)
    requires n > 0.0 && lo * n <= x <= hi * n
    ensures lo <= x / n <= hi
  {
  }

  /** The figures of `statistics` that do not depend on the calendar day. */
  datatype CardStatistics = CardStatistics(total: nat, due: nat, averageEasiness: real, sessionStats: StudySession)

  function Statistics(cards: seq<Card>, session: StudySession, now: int): (r: CardStatistics)
    ensures r.due <= r.total == |cards|
    ensures r.due == |DueCards(cards, now)|
  {
    CardStatistics(|cards|, |DueCards(cards, now)|, AverageEasiness(cards), session)
  }

  /** `cards` without the element at `i` (`splice(i, 1)`). */
  function Without(cards: seq<Card>, i: nat): seq<Card>
    requires i < |cards|
  {
    cards[..i] + cards[i+1..]
  }

  class Store {
    var cards: seq<Card>
    var currentIndex: nat
    var showBack: bool
    var studySession: StudySession
    var sessionLog: seq<StudySession>

    /** Sessions are consistent, and every logged snapshot is finished. */
    ghost predicate Valid()
      reads this
    {
      && Consistent(studySession)
      && forall i :: 0 <= i < |sessionLog| ==> !sessionLog[i].isActive && Consistent(sessionLog[i])
    }

    /** Start-up: the saved collection if there is one that parses, the three default cards otherwise. */
    constructor (saved: Option<seq<Card>>, now: int)
      ensures Valid()
      ensures cards == if saved.Some? then saved.value else DefaultCards(now)
      ensures currentIndex == 0 && !showBack && studySession == IDLE_SESSION && sessionLog == []
    {
      cards := if saved.Some? then saved.value else DefaultCards(now);
      currentIndex := 0;
      showBack := false;
      studySession := IDLE_SESSION;
      sessionLog := [];
    }

    /** `updateCard(card, quality)` on the card at position `j`, step by step as the source does. */
    method UpdateCard(j: nat, quality: int, now: int)
      requires Valid() && j < |cards|
      modifies this
      ensures Valid()
      ensures cards == old(cards)[j := Studied(old(cards)[j], quality, now)]
      ensures studySession == AfterReview(old(studySession), quality)
      ensures currentIndex == old(currentIndex) && showBack == old(showBack) && sessionLog == old(sessionLog)
    {
      var card := cards[j];
      card := card.(lastStudied := Some(now));
      if quality < PASSING_QUALITY {
        card := card.(repetitions := 0);
        card := card.(interval := 1);
      } else {
        card := card.(repetitions := card.repetitions + 1);
        if card.repetitions == 1 {
          card := card.(interval := 1);
        } else if card.repetitions == 2 {
          card := card.(interval := 6);
        } else {
          card := card.(interval := RoundHundredths(card.interval * card.easiness));
        }
      }
      card := card.(easiness := card.easiness + EasinessDelta(quality));
      card := card.(easiness := Max(MIN_EASINESS, card.easiness));
      card := card.(dueDate := now + card.interval * DAY_MS);
      cards := cards[j := card];

      if studySession.isActive {
        studySession := studySession.(cardsStudied := studySession.cardsStudied + 1);
        if quality >= PASSING_QUALITY {
          studySession := studySession.(correctAnswers := studySession.correctAnswers + 1);
        }
      }
    }

    /**
     * `rate(quality)`: without a current card nothing happens; otherwise review
     * it, hide the answer, move the cursor on within the recomputed due list or
     * wrap it to 0, and end the session once nothing is due.
     */
    method Rate(quality: int, now: int)
      requires Valid()
      modifies this
      ensures Valid()
      ensures CurrentCard(old(cards), old(currentIndex), now).None? ==>
        && cards == old(cards) && currentIndex == old(currentIndex) && showBack == old(showBack)
        && studySession == old(studySession) && sessionLog == old(sessionLog)
      ensures CurrentCard(old(cards), old(currentIndex), now).Some? ==>
        var j := DuePosition(old(cards), now, old(currentIndex));
        var session := AfterReview(old(studySession), quality);
        && cards == old(cards)[j := Studied(old(cards)[j], quality, now)]
        && !showBack
        && currentIndex == (if old(currentIndex) + 1 < |DueCards(cards, now)| then old(currentIndex) + 1 else 0)
        && (if DueCards(cards, now) == [] && session.isActive
            then studySession == session.(isActive := false) && sessionLog == old(sessionLog) + [Snapshot(session, now)]
            else studySession == session && sessionLog == old(sessionLog))
    {
      if currentIndex >= |DueCards(cards, now)| {
        return;
      }
      var j := DuePosition(cards, now, currentIndex);
      UpdateCard(j, quality, now);
      showBack := false;
      if currentIndex + 1 < |DueCards(cards, now)| {
        currentIndex := currentIndex + 1;
      } else {
        currentIndex := 0;
        if |DueCards(cards, now)| == 0 {
          EndStudySession(now);
        }
      }
    }

    /** `toggleShowBack()`: flip the answer flag, nothing else. */
    method ToggleShowBack()
      modifies this
      ensures showBack == !old(showBack)
      ensures cards == old(cards) && currentIndex == old(currentIndex)
      ensures studySession == old(studySession) && sessionLog == old(sessionLog)
    {
      showBack := !showBack;
    }

    /** `addCard(cardData)`: append one new card and return it. */
    method AddCard(id: string, data: CardData, now: int) returns (c: Card)
      modifies this
      ensures c == NewCard(id, data, now)
      ensures cards == old(cards) + [c]
      ensures currentIndex == old(currentIndex) && showBack == old(showBack)
      ensures studySession == old(studySession) && sessionLog == old(sessionLog)
    {
      c := NewCard(id, data, now);
      cards := cards + [c];
    }

    /** `updateCardData(cardId, cardData)`: merge into the first card with that id, if any. */
    method UpdateCardData(id: string, patch: CardPatch)
      modifies this
      ensures match FindIndex(old(cards), HasId(id))
              case None => cards == old(cards)
              case Some(i) => cards == old(cards)[i := Merge(old(cards)[i], patch)]
      ensures currentIndex == old(currentIndex) && showBack == old(showBack)
      ensures studySession == old(studySession) && sessionLog == old(sessionLog)
    {
      var found := FindIndex(cards, HasId(id));
      if found.Some? {
        var i := found.value;
        cards := cards[i := Merge(cards[i], patch)];
      }
    }

    /** `deleteCard(cardId)`: remove the first card with that id, if any. */
    method DeleteCard(id: string)
      modifies this
      ensures match FindIndex(old(cards), HasId(id))
              case None => cards == old(cards)
              case Some(i) => cards == Without(old(cards), i) && old(cards)[i].id == id
      ensures |cards| == |old(cards)| - (if FindIndex(old(cards), HasId(id)).Some? then 1 else 0)
      ensures currentIndex == old(currentIndex) && showBack == old(showBack)
      ensures studySession == old(studySession) && sessionLog == old(sessionLog)
    {
      var found := FindIndex(cards, HasId(id));
      if found.Some? {
        cards := Without(cards, found.value);
      }
    }

    /** `resetCard(cardId)`: restore the scheduling fields of the first card with that id, if any. */
    method ResetCard(id: string, now: int)
      modifies this
      ensures match FindIndex(old(cards), HasId(id))
              case None => cards == old(cards)
              case Some(i) => cards == old(cards)[i := ResetSchedule(old(cards)[i], now)]
      ensures currentIndex == old(currentIndex) && showBack == old(showBack)
      ensures studySession == old(studySession) && sessionLog == old(sessionLog)
    {
      var found := FindIndex(cards, HasId(id));
      if found.Some? {
        var i := found.value;
        var card := cards[i];
        card := card.(easiness := INITIAL_EASINESS);
        card := card.(interval := 0);
        card := card.(repetitions := 0);
        card := card.(dueDate := now);
        card := card.(lastStudied := None);
        cards := cards[i := card];
      }
    }

    /** `startStudySession()`: a fresh active session, cursor back to 0, answer hidden. */
    method StartStudySession(now: int)
      requires Valid()
      modifies this
      ensures Valid()
      ensures studySession == StudySession(Some(now), None, 0, 0, true)
      ensures currentIndex == 0 && !showBack
      ensures cards == old(cards) && sessionLog == old(sessionLog)
    {
      studySession := StudySession(Some(now), None, 0, 0, true);
      currentIndex := 0;
      showBack := false;
    }

    /** `endStudySession()`: log one finished snapshot and deactivate, only if a session is active. */
    method EndStudySession(now: int)
      requires Valid()
      modifies this
      ensures Valid()
      ensures old(studySession).isActive ==>
        && sessionLog == old(sessionLog) + [Snapshot(old(studySession), now)]
        && studySession == old(studySession).(isActive := false)
      ensures !old(studySession).isActive ==>
        sessionLog == old(sessionLog) && studySession == old(studySession)
      ensures cards == old(cards) && currentIndex == old(currentIndex) && showBack == old(showBack)
    {
      if studySession.isActive {
        var session := studySession.(endTime := Some(now));
        session := session.(isActive := false);
        sessionLog := sessionLog + [session];
        studySession := studySession.(isActive := false);
      }
    }

    /**
     * `importCards(jsonData, replaceExisting)`: `parsed` is the parsed list, or
     * `None` when parsing failed.  Replace overwrites the collection; merge
     * appends the imported cards whose ids are new.
     */
    method ImportCards(parsed: Option<seq<Card>>, replaceExisting: bool) returns (r: ImportResult)
      modifies this
      ensures parsed.None? ==> r == ImportFailed && cards == old(cards)
      ensures parsed.Some? ==> r == Imported(|parsed.value|)
      ensures parsed.Some? && replaceExisting ==> cards == parsed.value
      ensures parsed.Some? && !replaceExisting ==> cards == old(cards) + NewCardsOf(old(cards), parsed.value)
      ensures currentIndex == old(currentIndex) && showBack == old(showBack)
      ensures studySession == old(studySession) && sessionLog == old(sessionLog)
    {
      if parsed.None? {
        return ImportFailed;
      }
      var importedCards := parsed.value;
      if replaceExisting {
        cards := importedCards;
      } else {
        var newCards := NewCardsOf(cards, importedCards);
        cards := cards + newCards;
      }
      r := Imported(|importedCards|);
    }
  }

  /** A session started, then N reviews with k passing ratings: the counters read N and k. */
  method StudyRun(store: Store, positions: seq<nat>, qualities: seq<int>, now: int)
    requires store.Valid()
    requires |positions| == |qualities|
    requires forall i :: 0 <= i < |positions| ==> positions[i] < |store.cards|
    modifies store
    ensures store.Valid()
    ensures store.studySession.cardsStudied == |qualities|
    ensures store.studySession.correctAnswers == |Filter(qualities, Passing())|
    ensures store.studySession.isActive
  {
    store.StartStudySession(now);
    var n := 0;
    while n < |qualities|
      invariant 0 <= n <= |qualities|
      invariant store.Valid()
      invariant |store.cards| == |old(store.cards)|
      invariant store.studySession == Tally(StudySession(Some(now), None, 0, 0, true), qualities[..n])
    {
      store.UpdateCard(positions[n], qualities[n], now);
      assert qualities[..n+1] == qualities[..n] + [qualities[n]];
      TallyAppend(StudySession(Some(now), None, 0, 0, true), qualities[..n], qualities[n]);
      n := n + 1;
    }
    assert qualities[..n] == qualities;
    SessionAccounting(StudySession(Some(now), None, 0, 0, true), qualities);
  }

  /** Tallying one more rating is one more `AfterReview`. */
  lemma {:induction false} TallyAppend(s: StudySession, qualities: seq<int>, q: int)
    ensures Tally(s, qualities + [q]) == AfterReview(Tally(s, qualities), q)
    decreases |qualities|
  {
    if qualities == [] {
      assert qualities + [q] == [q];
    } else {
      assert (qualities + [q])[1..] == qualities[1..] + [q];
      TallyAppend(AfterReview(s, qualities[0]), qualities[1..], q);
    }
  }
}
