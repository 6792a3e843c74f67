/**
 * The deck controller of the top-level view: the profile sequence, the
 * cursor of the card on top, the single match slot with its dialog flag,
 * and the reshuffles scheduled but not yet fired.
 *
 * The state changes are specified by pure step functions over `DeckState`;
 * the class `DeckController` performs them in place and is proved to agree
 * with them. The match roll, the awaited message and the shuffle order
 * are parameters; the 500 ms deferred reshuffle is the separate step
 * `FireReshuffle`.
 */
module App {
  import opened Wrappers
  import opened Types
  import opened Shuffle
  import opened SwipeCard
  import opened GeminiService

  datatype DeckState = DeckState(
    profiles: seq<Profile>,
    currentIndex: nat,
    lastMatch: Option<MatchResult>,
    isMatchOpen: bool,
    pendingReshuffles: nat)

  /** The state the view starts in: the seed list, cursor 0, no match, nothing scheduled. */
  function Initial(seed: seq<Profile>): (s: DeckState)
    ensures DeckInv(s, seed) && s.profiles == seed && s.currentIndex == 0
    ensures !DialogVisible(s) && s.pendingReshuffles == 0
  {
    DeckState(seed, 0, None, false, 0)
  }

  /** The cursor points at a profile, or the deck is empty and the cursor is 0. */
  predicate CursorInRange(profiles: seq<Profile>, currentIndex: nat)
  {
    currentIndex < |profiles| || (profiles == [] && currentIndex == 0)
  }

  /** The deck holds exactly the seed's profiles, in some order, and the cursor is in range. */
  predicate DeckInv(s: DeckState, seed: seq<Profile>)
  {
    multiset(s.profiles) == multiset(seed) && CursorInRange(s.profiles, s.currentIndex)
  }

  /** The match dialog is drawn when it is open and a match has been published. */
  function DialogVisible(s: DeckState): (visible: bool)
    ensures visible ==> s.lastMatch.Some?
    ensures !s.isMatchOpen ==> !visible
  {
    s.isMatchOpen && s.lastMatch.Some?
  }

  /**
   * The "searching for a new match" placeholder is drawn when the cursor
   * is past the deck, which is exactly when no card is drawn.
   */
  function PlaceholderShown(s: DeckState): (shown: bool)
    ensures shown <==> RenderWindow(s.profiles, s.currentIndex) == []
  {
    s.currentIndex >= |s.profiles|
  }

  /**
   * A right swipe with a winning roll reads the name of the profile at the
   * cursor; with no profile there, that read throws and the handler stops
   * before changing anything.
   */
  function Aborts(s: DeckState, dir: Direction, roll: bool): (aborts: bool)
    ensures aborts ==> dir == Right && roll
    ensures CursorInRange(s.profiles, s.currentIndex) ==>
      (aborts <==> dir == Right && roll && s.profiles == [])
  {
    dir == Right && roll && s.currentIndex >= |s.profiles|
  }

  /**
   * One swipe. A right swipe with a winning roll publishes a match for the
   * profile at the (pre-swipe) cursor and opens the dialog; then the cursor
   * advances by one, or, at the last profile, stays and a reshuffle is
   * scheduled. The profile sequence is never touched.
   */
  function SwipeStep(s: DeckState, dir: Direction, roll: bool, message: string): (t: DeckState)
    ensures t.profiles == s.profiles
    ensures s.currentIndex + 1 < |s.profiles| ==>
      t.currentIndex == s.currentIndex + 1 && t.pendingReshuffles == s.pendingReshuffles
    ensures s.currentIndex + 1 >= |s.profiles| && !Aborts(s, dir, roll) ==>
      t.currentIndex == s.currentIndex && t.pendingReshuffles == s.pendingReshuffles + 1
    ensures dir == Left || !roll ==> t.lastMatch == s.lastMatch && t.isMatchOpen == s.isMatchOpen
    ensures dir == Right && roll && s.currentIndex < |s.profiles| ==>
      t.lastMatch == Some(MatchResult(s.profiles[s.currentIndex], message)) && DialogVisible(t)
    ensures Aborts(s, dir, roll) ==> t == s
    ensures CursorInRange(s.profiles, s.currentIndex) ==> CursorInRange(t.profiles, t.currentIndex)
  {
    if Aborts(s, dir, roll) then
      s
    else
      var published :=
        if dir == Right && roll then
          s.(lastMatch := Some(MatchResult(s.profiles[s.currentIndex], message)), isMatchOpen := true)
        else
          s;
      if s.currentIndex < |s.profiles| - 1 then
        published.(currentIndex := s.currentIndex + 1)
      else
        published.(pendingReshuffles := s.pendingReshuffles + 1)
  }

  /**
   * A scheduled reshuffle fires: the cursor returns to 0 and the deck
   * becomes the seed list in the order `perm`, so it again holds exactly
   * the seed's profiles. The match slot is not touched.
   */
  function ReshuffleStep(s: DeckState, seed: seq<Profile>, perm: seq<nat>): (t: DeckState)
    requires s.pendingReshuffles > 0
    requires IsIndexPermutation(perm, |seed|)
    ensures DeckInv(t, seed) && t.currentIndex == 0
    ensures Ids(t.profiles) == Permute(Ids(seed), perm)
    ensures t.lastMatch == s.lastMatch && t.isMatchOpen == s.isMatchOpen
    ensures t.pendingReshuffles == s.pendingReshuffles - 1
  {
    var shuffled := Permute(seed, perm);
    assert Ids(shuffled) == Permute(Ids(seed), perm);
    s.(currentIndex := 0, profiles := shuffled, pendingReshuffles := s.pendingReshuffles - 1)
  }

  /** Dismissing the dialog hides it and keeps the last match. */
  function DismissStep(s: DeckState): (t: DeckState)
    ensures !DialogVisible(t) && !t.isMatchOpen && t.lastMatch == s.lastMatch
    ensures t.profiles == s.profiles && t.currentIndex == s.currentIndex
    ensures t.pendingReshuffles == s.pendingReshuffles
  {
    s.(isMatchOpen := false)
  }

  /** A reshuffled deck of a seed with distinct identifiers has distinct identifiers, the same ones. */
  lemma ReshuffleKeepsIds(s: DeckState, seed: seq<Profile>, perm: seq<nat>)
    requires s.pendingReshuffles > 0
    requires IsIndexPermutation(perm, |seed|)
    requires DistinctIds(seed)
    ensures var t := ReshuffleStep(s, seed, perm);
      DistinctIds(t.profiles) && multiset(Ids(t.profiles)) == multiset(Ids(seed))
  {
    var t := ReshuffleStep(s, seed, perm);
    PermuteDistinct(Ids(seed), perm);
    assert forall i :: 0 <= i < |t.profiles| ==> Ids(t.profiles)[i] == t.profiles[i].id;
  }

  /** With a non-empty seed the cursor always points at a profile, so the placeholder is never drawn. */
  lemma NeverExhausted(s: DeckState, seed: seq<Profile>)
    requires DeckInv(s, seed) && seed != []
    ensures 0 <= s.currentIndex <= |s.profiles| - 1 && !PlaceholderShown(s)
  {
    assert |s.profiles| == |multiset(s.profiles)| == |multiset(seed)| == |seed|;
  }

  /** Dismissing twice is dismissing once. */
  lemma DismissIdempotent(s: DeckState)
    ensures DismissStep(DismissStep(s)) == DismissStep(s)
  {
  }

  /** After a dismissal, the next winning right swipe opens the dialog again, with the new match. */
  lemma DismissThenMatch(s: DeckState, message: string)
    requires s.currentIndex < |s.profiles|
    ensures var t := SwipeStep(DismissStep(s), Right, true, message);
      DialogVisible(t) && t.lastMatch == Some(MatchResult(s.profiles[s.currentIndex], message))
  {
  }

  // ---------------------------------------------------------------------
  // Runs of swipes.
  // ---------------------------------------------------------------------

  datatype SwipeInput = SwipeInput(dir: Direction, roll: bool, message: string)

  /** The state after the swipes `inputs`, in order. */
  function SwipeAll(s: DeckState, inputs: seq<SwipeInput>): DeckState
    decreases |inputs|
  {
    if inputs == [] then s
    else SwipeAll(SwipeStep(s, inputs[0].dir, inputs[0].roll, inputs[0].message), inputs[1..])
  }

  /** The cursor each of the swipes `inputs` acts on: the index of the card on top at that moment. */
  function TopIndices(s: DeckState, inputs: seq<SwipeInput>): seq<nat>
    decreases |inputs|
  {
    if inputs == [] then
      []
    else
      var next := SwipeStep(s, inputs[0].dir, inputs[0].roll, inputs[0].message);
      [s.currentIndex] + TopIndices(next, inputs[1..])
  }

  /**
   * Swipes that stay within the deck visit the indices from the cursor on,
   * each once, in order, whatever their directions and rolls. Until the
   * last profile is swiped the cursor advances by one per swipe and nothing
   * is scheduled; the swipe on the last profile leaves the cursor there and
   * schedules one reshuffle.
   */
  lemma {:induction false} SwipesVisitInOrder(s: DeckState, inputs: seq<SwipeInput>)
    requires s.currentIndex + |inputs| <= |s.profiles|
    ensures TopIndices(s, inputs) == seq(|inputs|, i requires 0 <= i < |inputs| => s.currentIndex + i)
    ensures SwipeAll(s, inputs).profiles == s.profiles
    ensures s.currentIndex + |inputs| < |s.profiles| ==>
      SwipeAll(s, inputs).currentIndex == s.currentIndex + |inputs|
      && SwipeAll(s, inputs).pendingReshuffles == s.pendingReshuffles
    ensures inputs != [] && s.currentIndex + |inputs| == |s.profiles| ==>
      SwipeAll(s, inputs).currentIndex == |s.profiles| - 1
      && SwipeAll(s, inputs).pendingReshuffles == s.pendingReshuffles + 1
    decreases |inputs|
  {
    if inputs != [] {
      var next := SwipeStep(s, inputs[0].dir, inputs[0].roll, inputs[0].message);
      SwipesVisitInOrder(next, inputs[1..]);
    }
  }

  /**
   * A full pass from cursor 0 over a deck of n profiles: n swipes put each
   * index 0 .. n-1 on top exactly once, in order, and end with the cursor
   * on the last profile and one reshuffle scheduled.
   */
  lemma FullPass(s: DeckState, inputs: seq<SwipeInput>)
    requires s.currentIndex == 0 && |inputs| == |s.profiles| > 0
    ensures TopIndices(s, inputs) == seq(|inputs|, i requires 0 <= i < |inputs| => i)
    ensures SwipeAll(s, inputs).currentIndex == |s.profiles| - 1
    ensures SwipeAll(s, inputs).pendingReshuffles == s.pendingReshuffles + 1
  {
    SwipesVisitInOrder(s, inputs);
  }

  // ---------------------------------------------------------------------
  // The render window.
  // ---------------------------------------------------------------------

  /** A rendered card: the profile, its index in the deck, and whether it is the interactive top card. */
  datatype Card = Card(profile: Profile, index: nat, isTop: bool)

  /**
   * The cards drawn for the indices from `i` on: exactly the indices in
   * `[currentIndex, currentIndex + 1]` that exist, in increasing order,
   * with only the one at the cursor on top.
   */
  function RenderFrom(profiles: seq<Profile>, currentIndex: nat, i: nat): (cards: seq<Card>)
    requires i <= |profiles|
    ensures var lo := if i < currentIndex then currentIndex else i;
      var hi := if currentIndex + 2 < |profiles| then currentIndex + 2 else |profiles|;
      |cards| == (if lo < hi then hi - lo else 0)
      && forall k :: 0 <= k < |cards| ==>
        lo + k < |profiles| && cards[k] == Card(profiles[lo + k], lo + k, lo + k == currentIndex)
    decreases |profiles| - i
  {
    if i == |profiles| then
      []
    else if i < currentIndex || i > currentIndex + 1 then
      RenderFrom(profiles, currentIndex, i + 1)
    else
      [Card(profiles[i], i, i == currentIndex)] + RenderFrom(profiles, currentIndex, i + 1)
  }

  /**
   * The cards the view draws: the profile at the cursor, on top, and the
   * one after it, behind; only the top one at the last profile; none once
   * the cursor is past the deck.
   */
  function RenderWindow(profiles: seq<Profile>, currentIndex: nat): (cards: seq<Card>)
    ensures currentIndex + 1 < |profiles| ==>
      cards == [Card(profiles[currentIndex], currentIndex, true),
                Card(profiles[currentIndex + 1], currentIndex + 1, false)]
    ensures currentIndex + 1 == |profiles| ==>
      cards == [Card(profiles[currentIndex], currentIndex, true)]
    ensures currentIndex >= |profiles| ==> cards == []
  {
    RenderFrom(profiles, currentIndex, 0)
  }

  /** In every state the deck can be in, a non-empty seed gives exactly one top card, the one at the cursor. */
  lemma OneTopCard(s: DeckState, seed: seq<Profile>)
    requires DeckInv(s, seed) && seed != []
    ensures var cards := RenderWindow(s.profiles, s.currentIndex);
      1 <= |cards| <= 2 && cards[0].isTop && cards[0].index == s.currentIndex
      && forall k :: 1 <= k < |cards| ==> !cards[k].isTop
  {
    NeverExhausted(s, seed);
  }

  // ---------------------------------------------------------------------
  // The controller, updating its fields in place.
  // ---------------------------------------------------------------------

  class DeckController {
    const seed: seq<Profile>
    var profiles: seq<Profile>
    var currentIndex: nat
    var lastMatch: Option<MatchResult>
    var isMatchOpen: bool
    var pendingReshuffles: nat

    function State(): DeckState
      reads this
    {
      DeckState(profiles, currentIndex, lastMatch, isMatchOpen, pendingReshuffles)
    }

    ghost predicate Valid()
      reads this
    {
      DeckInv(State(), seed)
    }

    constructor (seed: seq<Profile>)
      ensures this.seed == seed && Valid() && State() == Initial(seed)
    {
      this.seed := seed;
      profiles := seed;
      currentIndex := 0;
      lastMatch := None;
      isMatchOpen := false;
      pendingReshuffles := 0;
    }

    /** The swipe handler, run to completion with the roll and the awaited message given. */
    method Swipe(dir: Direction, roll: bool, message: string)
      requires Valid()
      modifies this
      ensures Valid()
      ensures State() == SwipeStep(old(State()), dir, roll, message)
    {
      if dir == Right && roll {
        if currentIndex >= |profiles| {
          return;
        }
        var currentProfile := profiles[currentIndex];
        lastMatch := Some(MatchResult(currentProfile, message));
        isMatchOpen := true;
      }
      if currentIndex < |profiles| - 1 {
        currentIndex := currentIndex + 1;
      } else {
        pendingReshuffles := pendingReshuffles + 1;
      }
    }

    /** The deferred reshuffle's body, with the shuffle order given. */
    method FireReshuffle(perm: seq<nat>)
      requires Valid()
      requires pendingReshuffles > 0
      requires IsIndexPermutation(perm, |seed|)
      modifies this
      ensures Valid()
      ensures State() == ReshuffleStep(old(State()), seed, perm)
    {
      currentIndex := 0;
      profiles := Permute(seed, perm);
      pendingReshuffles := pendingReshuffles - 1;
    }

    /** Closing the match dialog (backdrop click or the send-message button). */
    method Dismiss()
      requires Valid()
      modifies this
      ensures Valid()
      ensures State() == DismissStep(old(State()))
    {
      isMatchOpen := false;
    }
  }

  // ---------------------------------------------------------------------
  // A worked scenario on the three-profile seed.
  // ---------------------------------------------------------------------

  /**
   * Deck あみ, りな, もか at cursor 0. A left swipe (even with a winning
   * roll) publishes nothing and moves to りな; a winning right swipe whose
   * message generation succeeds publishes りな with that text and moves to
   * もか; a winning right swipe whose generation fails publishes もか with
   * the templated fallback, keeps the cursor on もか and schedules a
   * reshuffle; firing it returns to cursor 0 with the same three profiles.
   */
  lemma ThreeProfileScenario(perm: seq<nat>)
    requires IsIndexPermutation(perm, 3)
    ensures
      var s1 := SwipeStep(Initial(MockProfiles), Left, true, "");
      var s2 := SwipeStep(s1, Right, true, MatchMessage(MockProfiles[1].name, Generated("やったね！")));
      var s3 := SwipeStep(s2, Right, true, MatchMessage(MockProfiles[2].name, Failed));
      && s1.currentIndex == 1 && s1.lastMatch == None && !DialogVisible(s1)
      && s2.currentIndex == 2 && s2.lastMatch == Some(MatchResult(MockProfiles[1], "やったね！"))
      && DialogVisible(s2)
      && s3.currentIndex == 2 && s3.pendingReshuffles == 1
      && s3.lastMatch == Some(MatchResult(MockProfiles[2], "もかさんとマッチしました！"))
      && var s4 := ReshuffleStep(s3, MockProfiles, perm);
         s4.currentIndex == 0 && multiset(s4.profiles) == multiset(MockProfiles)
  {
    var s1 := SwipeStep(Initial(MockProfiles), Left, true, "");
    var s2 := SwipeStep(s1, Right, true, MatchMessage(MockProfiles[1].name, Generated("やったね！")));
    assert MatchMessage(MockProfiles[2].name, Failed) == "もかさんとマッチしました！";
  }
}
