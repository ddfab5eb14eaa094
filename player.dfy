/** The pile logic of one player: addressing a card across the hand and the
    shared pool, taking it out of its pile, the rule that a labyrinth never
    shows the same symbol twice in a row, door discovery by three cards of
    one class in a row, and the search for a key. The piles are passed in
    explicitly; the game object owns them and applies the changes. */
module Players {
  import opened Cards
  import opened CardSlices

  /** Indices at or past the hand's length address the shared pool at
      `i - SharedOffset`; the key search reports shared positions as
      `SharedOffset + i`. The offset is fixed, whatever the hand's size. */
  const SharedOffset := 3

  /** The class reported when no door can be discovered. */
  const NoClass := -1

  /** The pile a card was taken from. */
  datatype Pile = Hand | Shared

  // ---------------------------------------------------------------------
  // Addressing a card

  /** `i` names a card: a hand position, or a shared position past the
      offset. Any other index makes the source index out of range. */
  predicate Addresses(hand: seq<LabyrinthCard>, shared: seq<LabyrinthCard>, i: int) {
    0 <= i && (i < |hand| || (SharedOffset <= i && i - SharedOffset < |shared|))
  }

  /** The card at index `i` and the pile it lies in. */
  function CardAt(hand: seq<LabyrinthCard>, shared: seq<LabyrinthCard>, i: int): (r: (LabyrinthCard, Pile))
    requires Addresses(hand, shared, i)
    ensures r.1 == Hand <==> i < |hand|
    ensures r.1 == Hand ==> r.0 == hand[i]
    ensures r.1 == Shared ==> r.0 == shared[i - SharedOffset]
  {
    if i < |hand| then (hand[i], Hand) else (shared[i - SharedOffset], Shared)
  }

  // ---------------------------------------------------------------------
  // Taking a card out of its pile

  /** The hand and shared pool once the card at `i` has left its pile. */
  function AfterRemoval(hand: seq<LabyrinthCard>, shared: seq<LabyrinthCard>, i: int)
    : (r: (seq<LabyrinthCard>, seq<LabyrinthCard>))
    requires Addresses(hand, shared, i)
    ensures CardAt(hand, shared, i).1 == Hand ==> r.0 == RemoveAt(hand, i) && r.1 == shared
    ensures CardAt(hand, shared, i).1 == Shared ==> r.0 == hand && r.1 == RemoveAt(shared, i - SharedOffset)
  {
    if i < |hand| then (RemoveAt(hand, i), shared)
    else (hand, RemoveAt(shared, i - SharedOffset))
  }

  /** Removal takes exactly the addressed card out of the two piles. */
  lemma RemovalTakesCard(hand: seq<LabyrinthCard>, shared: seq<LabyrinthCard>, i: int)
    requires Addresses(hand, shared, i)
    ensures var (h, s) := AfterRemoval(hand, shared, i);
      |h| + |s| + 1 == |hand| + |shared|
      && multiset(h) + multiset(s) + multiset{CardAt(hand, shared, i).0}
         == multiset(hand) + multiset(shared)
  {
    if i < |hand| {
      RemoveAtMultiset(hand, i);
    } else {
      RemoveAtMultiset(shared, i - SharedOffset);
    }
  }

  /** The source's removal: it appends the card to its pile again instead
      of taking it out. */
  function AfterRemovalAsWritten(hand: seq<LabyrinthCard>, shared: seq<LabyrinthCard>, i: int)
    : (r: (seq<LabyrinthCard>, seq<LabyrinthCard>))
    requires Addresses(hand, shared, i)
  {
    var (card, pile) := CardAt(hand, shared, i);
    if pile == Hand then (hand + [card], shared) else (hand, shared + [card])
  }

  /** As written, the addressed card stays in its pile and gains a second
      copy, so the piles grow instead of shrinking. */
  lemma RemovalAsWrittenKeepsCard(hand: seq<LabyrinthCard>, shared: seq<LabyrinthCard>, i: int)
    requires Addresses(hand, shared, i)
    ensures var (h, s) := AfterRemovalAsWritten(hand, shared, i);
      var card := CardAt(hand, shared, i).0;
      |h| + |s| == |hand| + |shared| + 1
      && (multiset(h) + multiset(s))[card] == (multiset(hand) + multiset(shared))[card] + 1
  {
  }

  // ---------------------------------------------------------------------
  // The labyrinth

  /** The last card of the labyrinth, or the zero card and `false` when it
      is empty. */
  function LabyrinthEnd(lab: seq<LabyrinthCard>): (r: (LabyrinthCard, bool))
    ensures r.1 <==> lab != []
    ensures r.1 ==> r.0 == lab[|lab| - 1]
    ensures !r.1 ==> r.0 == Labyrinth(Observatory, Sun)
  {
    if |lab| == 0 then (Labyrinth(Observatory, Sun), false) else (lab[|lab| - 1], true)
  }

  /** A card may be played unless the labyrinth ends in its symbol. */
  predicate Placeable(lab: seq<LabyrinthCard>, card: LabyrinthCard) {
    var (end, ok) := LabyrinthEnd(lab);
    !ok || card.symbol != end.symbol
  }

  /** No two neighbouring cards of the labyrinth share a symbol. */
  predicate NoAdjacentSymbols(lab: seq<LabyrinthCard>) {
    forall k :: 0 < k < |lab| ==> lab[k - 1].symbol != lab[k].symbol
  }

  /** Playing a card keeps the labyrinth free of adjacent symbols exactly
      when the card is placeable; an empty labyrinth accepts any card. */
  lemma PlacingKeepsSymbolsApart(lab: seq<LabyrinthCard>, card: LabyrinthCard)
    requires NoAdjacentSymbols(lab)
    ensures NoAdjacentSymbols(lab + [card]) <==> Placeable(lab, card)
    ensures lab == [] ==> Placeable(lab, card)
  {
    if lab != [] && !Placeable(lab, card) {
      var k := |lab|;
      assert (lab + [card])[k - 1] == lab[k - 1] && (lab + [card])[k] == card;
    }
  }

  /** The played card becomes the labyrinth's end. */
  lemma PlayedCardIsEnd(lab: seq<LabyrinthCard>, card: LabyrinthCard)
    ensures LabyrinthEnd(lab + [card]) == (card, true)
  {
  }

  /** Whether the last three cards share a class, and which class. */
  function CanDiscoverDoor(lab: seq<LabyrinthCard>): (r: (int, bool))
    ensures r.1 ==> (|lab| >= 3 && forall k :: |lab| - 3 <= k < |lab| ==> lab[k].cls == r.0)
    ensures !r.1 ==> (r.0 == NoClass && (|lab| < 3 ||
      exists k :: |lab| - 3 <= k < |lab| && lab[k].cls != lab[|lab| - 1].cls))
  {
    var n := |lab|;
    if n >= 3 && lab[n - 1].cls == lab[n - 2].cls && lab[n - 2].cls == lab[n - 3].cls
    then (lab[n - 1].cls, true)
    else (NoClass, false)
  }

  /** Discovery depends only on the last three cards: whatever lies
      before them, the answer is the same, and a class in common among
      them is always found. */
  lemma DiscoveryByLastThree(lab: seq<LabyrinthCard>, prefix: seq<LabyrinthCard>, cls: int)
    requires |lab| >= 3
    ensures CanDiscoverDoor(prefix + lab) == CanDiscoverDoor(lab)
    ensures (forall k :: |lab| - 3 <= k < |lab| ==> lab[k].cls == cls) ==>
      CanDiscoverDoor(prefix + lab) == (cls, true)
  {
    var n := |prefix + lab|;
    assert (prefix + lab)[n - 1] == lab[|lab| - 1];
    assert (prefix + lab)[n - 2] == lab[|lab| - 2];
    assert (prefix + lab)[n - 3] == lab[|lab| - 3];
  }

  // ---------------------------------------------------------------------
  // The key search

  /** The first position of a key of class `cls` in `s`, or -1. */
  function FirstKey(s: seq<LabyrinthCard>, cls: int): (k: int)
    ensures -1 <= k < |s|
    ensures k == -1 <==> Labyrinth(cls, Key) !in s
    ensures k >= 0 ==> s[k] == Labyrinth(cls, Key) && Labyrinth(cls, Key) !in s[..k]
  {
    if s == [] then -1
    else if s[0] == Labyrinth(cls, Key) then 0
    else
      var k := FirstKey(s[1..], cls);
      assert s == [s[0]] + s[1..];
      if k == -1 then -1
      else
        assert s[..k + 1] == [s[0]] + s[1..][..k];
        k + 1
  }

  /** A position holding the key, with no key before it, is the first one. */
  lemma FirstKeyAt(s: seq<LabyrinthCard>, cls: int, i: nat)
    requires i < |s| && s[i] == Labyrinth(cls, Key) && Labyrinth(cls, Key) !in s[..i]
    ensures FirstKey(s, cls) == i
  {
  }

  /** The answer of the key search: the first hand position of a key of
      class `cls`; failing that, `SharedOffset` plus its first shared
      position; failing that, -1 and `false`. */
  function KeySearch(hand: seq<LabyrinthCard>, shared: seq<LabyrinthCard>, cls: int): (r: (int, bool))
    ensures r.1 <==> Labyrinth(cls, Key) in hand || Labyrinth(cls, Key) in shared
    ensures !r.1 ==> r.0 == -1
  {
    var h := FirstKey(hand, cls);
    if h >= 0 then (h, true)
    else
      var s := FirstKey(shared, cls);
      if s >= 0 then (s + SharedOffset, true) else (-1, false)
  }

  /** Reads the hand, then the shared pool, for a key of class `cls`. */
  method HasKey(hand: seq<LabyrinthCard>, shared: seq<LabyrinthCard>, cls: int) returns (index: int, found: bool)
    ensures (index, found) == KeySearch(hand, shared, cls)
  {
    for i := 0 to |hand|
      invariant Labyrinth(cls, Key) !in hand[..i]
    {
      var card := hand[i];
      if card.symbol == Key && card.cls == cls {
        FirstKeyAt(hand, cls, i);
        return i, true;
      }
      assert hand[..i + 1] == hand[..i] + [card];
    }
    assert hand[..|hand|] == hand;
    for i := 0 to |shared|
      invariant Labyrinth(cls, Key) !in shared[..i]
    {
      var card := shared[i];
      if card.symbol == Key && card.cls == cls {
        FirstKeyAt(shared, cls, i);
        return i + SharedOffset, true;
      }
      assert shared[..i + 1] == shared[..i] + [card];
    }
    assert shared[..|shared|] == shared;
    return -1, false;
  }

  /** The index found addresses a key of the class searched for when the
      key is in the hand, or when it is in the shared pool and the hand is
      no longer than the offset. */
  lemma KeySearchAddresses(hand: seq<LabyrinthCard>, shared: seq<LabyrinthCard>, cls: int)
    requires Labyrinth(cls, Key) in hand
      || (Labyrinth(cls, Key) in shared && |hand| <= SharedOffset)
    ensures Addresses(hand, shared, KeySearch(hand, shared, cls).0)
    ensures CardAt(hand, shared, KeySearch(hand, shared, cls).0).0 == Labyrinth(cls, Key)
  {
  }

  /** With a dealt hand of five cards and the key in the shared pool, the
      reported index addresses a hand card instead. */
  lemma KeySearchMisaddresses()
    ensures var hand := [Labyrinth(Observatory, Sun), Labyrinth(Observatory, Sun),
                         Labyrinth(Observatory, Sun), Labyrinth(Observatory, Sun),
                         Labyrinth(Observatory, Sun)];
      var shared := [Labyrinth(Aquarium, Key)];
      KeySearch(hand, shared, Aquarium) == (3, true)
      && CardAt(hand, shared, 3).0 == Labyrinth(Observatory, Sun)
  {
    var hand := [Labyrinth(Observatory, Sun), Labyrinth(Observatory, Sun),
                 Labyrinth(Observatory, Sun), Labyrinth(Observatory, Sun),
                 Labyrinth(Observatory, Sun)];
    var shared := [Labyrinth(Aquarium, Key)];
    assert Labyrinth(Aquarium, Key) !in hand;
    assert FirstKey(shared, Aquarium) == 0;
  }
}
