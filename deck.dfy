/** The deck: an ordered pile of cards whose front is the top. `Deck` is a
    class because every operation of the source reslices or permutes the
    deck in place through a pointer receiver. */
module Decks {
  import opened Errors
  import opened Cards
  import opened CardSlices

  /** A hand holds five labyrinth cards. */
  const HandSize := 5

  // ---------------------------------------------------------------------
  // Shuffling

  /** A source of randomness for shuffling `n` cards: step `i` of the
      shuffle swaps position `i` with position `js[i]`, drawn from [0, i]
      (the value `rand.Intn(i + 1)` returns). */
  predicate IsSwapPlan(js: seq<nat>, n: nat) {
    n <= |js| && forall i :: 0 <= i < n ==> js[i] <= i
  }

  function Swap(s: seq<Card>, i: nat, j: nat): (r: seq<Card>)
    requires i < |s| && j < |s|
    ensures |r| == |s|
  {
    s[i := s[j]][j := s[i]]
  }

  lemma SwapPermutes(s: seq<Card>, i: nat, j: nat)
    requires i < |s| && j < |s|
    ensures multiset(Swap(s, i, j)) == multiset(s)
  {
  }

  /** The deck after steps i, i + 1, ..., |s| - 1 of the shuffle. */
  function ShuffledFrom(s: seq<Card>, js: seq<nat>, i: nat): (r: seq<Card>)
    requires i <= |s| && IsSwapPlan(js, |s|)
    ensures |r| == |s|
    decreases |s| - i
  {
    if i == |s| then s else ShuffledFrom(Swap(s, i, js[i]), js, i + 1)
  }

  /** The deck after a whole Fisher-Yates shuffle driven by `js`. */
  function Shuffled(s: seq<Card>, js: seq<nat>): (r: seq<Card>)
    requires IsSwapPlan(js, |s|)
    ensures |r| == |s|
  {
    ShuffledFrom(s, js, 0)
  }

  lemma {:induction false} ShuffledFromPermutes(s: seq<Card>, js: seq<nat>, i: nat)
    requires i <= |s| && IsSwapPlan(js, |s|)
    ensures multiset(ShuffledFrom(s, js, i)) == multiset(s)
    decreases |s| - i
  {
    if i < |s| {
      SwapPermutes(s, i, js[i]);
      ShuffledFromPermutes(Swap(s, i, js[i]), js, i + 1);
    }
  }

  /** A shuffle only rearranges: same length, same multiset of cards. */
  lemma ShufflePermutes(s: seq<Card>, js: seq<nat>)
    requires IsSwapPlan(js, |s|)
    ensures multiset(Shuffled(s, js)) == multiset(s)
  {
    ShuffledFromPermutes(s, js, 0);
  }

  // ---------------------------------------------------------------------
  // Labyrinth cards in a pile

  /** The labyrinth cards of `s`, in their order in `s`. */
  function Labyrinths(s: seq<Card>): (r: seq<LabyrinthCard>)
    ensures |r| <= |s|
  {
    if s == [] then []
    else if s[0].Labyrinth? then [s[0]] + Labyrinths(s[1..])
    else Labyrinths(s[1..])
  }

  lemma {:induction false} LabyrinthsAppend(a: seq<Card>, b: seq<Card>)
    ensures Labyrinths(a + b) == Labyrinths(a) + Labyrinths(b)
  {
    if a == [] {
      assert a + b == b;
    } else {
      assert (a + b)[0] == a[0] && (a + b)[1..] == a[1..] + b;
      LabyrinthsAppend(a[1..], b);
      if a[0].Labyrinth? {
        assert Labyrinths(a + b) == [a[0]] + (Labyrinths(a[1..]) + Labyrinths(b));
        assert [a[0]] + (Labyrinths(a[1..]) + Labyrinths(b))
            == ([a[0]] + Labyrinths(a[1..])) + Labyrinths(b);
      }
    }
  }

  lemma LabyrinthsSplice(p: seq<Card>, x: Card, q: seq<Card>)
    ensures multiset(Labyrinths(p + [x] + q)) == multiset(Labyrinths(p + q)) + multiset(Labyrinths([x]))
  {
    LabyrinthsAppend(p + [x], q);
    LabyrinthsAppend(p, [x]);
    LabyrinthsAppend(p, q);
  }

  /** Taking one card out of a pile takes it out of the pile's labyrinth
      cards when it is one, and leaves them alone otherwise. */
  lemma LabyrinthsRemoveAt(t: seq<Card>, k: nat)
    requires k < |t|
    ensures multiset(Labyrinths(t)) == multiset(Labyrinths(RemoveAt(t, k))) + multiset(Labyrinths([t[k]]))
  {
    RemoveAtSplits(t, k);
    LabyrinthsSplice(t[..k], t[k], t[k + 1..]);
  }

  /** Rearranging a pile rearranges its labyrinth cards. */
  lemma {:induction false} LabyrinthsPermutation(s: seq<Card>, t: seq<Card>)
    requires multiset(s) == multiset(t)
    ensures multiset(Labyrinths(s)) == multiset(Labyrinths(t))
    decreases |s|
  {
    if s == [] {
      assert |t| == |multiset(t)| == 0;
    } else {
      var x := s[0];
      assert x in multiset(t);
      var k :| 0 <= k < |t| && t[k] == x;
      var u := RemoveAt(t, k);
      RemoveMatchingHeads(s, t, k);
      LabyrinthsPermutation(s[1..], u);
      LabyrinthsRemoveAt(t, k);
      assert s == [x] + s[1..];
      LabyrinthsAppend([x], s[1..]);
    }
  }

  // ---------------------------------------------------------------------
  // The starting deck

  function Repeat<T>(n: nat, block: seq<T>): (r: seq<T>)
    ensures |r| == n * |block|
  {
    if n == 0 then [] else Repeat(n - 1, block) + block
  }

  lemma {:induction false} RepeatCount<T>(n: nat, block: seq<T>, x: T)
    ensures multiset(Repeat(n, block))[x] == n * multiset(block)[x]
  {
    if n > 0 {
      var m := multiset(block)[x];
      RepeatCount(n - 1, block, x);
      assert (n - 1) * m + m == n * m;
    }
  }

  lemma {:induction false} RepeatLabyrinths(n: nat, block: seq<Card>)
    ensures |Labyrinths(Repeat(n, block))| == n * |Labyrinths(block)|
  {
    if n > 0 {
      var m := |Labyrinths(block)|;
      RepeatLabyrinths(n - 1, block);
      LabyrinthsAppend(Repeat(n - 1, block), block);
      assert (n - 1) * m + m == n * m;
    }
  }

  /** One labyrinth card of each class, with the given symbol. */
  function EveryClass(symbol: int): seq<Card> {
    [Labyrinth(Observatory, symbol), Labyrinth(Aquarium, symbol),
     Labyrinth(Garden, symbol), Labyrinth(Library, symbol)]
  }

  function EveryDoor(): seq<Card> {
    [Door(Observatory), Door(Aquarium), Door(Garden), Door(Library)]
  }

  /** The suns that make the per-class counts 9, 8, 7 and 6. */
  function ExtraSuns(): seq<Card> {
    [Labyrinth(Observatory, Sun), Labyrinth(Observatory, Sun), Labyrinth(Observatory, Sun),
     Labyrinth(Aquarium, Sun), Labyrinth(Aquarium, Sun), Labyrinth(Garden, Sun)]
  }

  /** The starting deck, in the order it is built. */
  function BasicDeck(): seq<Card> {
    Repeat(2, EveryDoor())
    + Repeat(6, EveryClass(Sun)) + ExtraSuns()
    + Repeat(4, EveryClass(Moon))
    + Repeat(3, EveryClass(Key))
    + Repeat(10, [Dream(Nightmare)])
  }

  /** How many copies of each card the starting deck holds: 2 doors per
      class; 9, 8, 7 and 6 suns, 4 moons and 3 keys for the four classes;
      10 nightmares; nothing else. */
  function BasicCount(c: Card): nat {
    match c
    case Door(cls) => if IsClass(cls) then 2 else 0
    case Dream(kind) => if IsDreamKind(kind) then 10 else 0
    case Labyrinth(cls, symbol) =>
      if !IsClass(cls) || !IsSymbol(symbol) then 0
      else if symbol == Sun then 9 - cls
      else if symbol == Moon then 4
      else 3
  }

  lemma EveryDoorCount(c: Card)
    ensures multiset(EveryDoor())[c] == if c.Door? && IsClass(c.cls) then 1 else 0
  {
  }

  lemma EveryClassCount(symbol: int, c: Card)
    ensures multiset(EveryClass(symbol))[c]
         == if c.Labyrinth? && IsClass(c.cls) && c.symbol == symbol then 1 else 0
  {
  }

  lemma ExtraSunsCount(c: Card)
    ensures multiset(ExtraSuns())[c]
         == if c == Labyrinth(Observatory, Sun) then 3
            else if c == Labyrinth(Aquarium, Sun) then 2
            else if c == Labyrinth(Garden, Sun) then 1
            else 0
  {
  }

  /** A count in a concatenation of six pieces is the sum of the pieces' counts. */
  lemma CountOfSix(a: seq<Card>, b: seq<Card>, c: seq<Card>, d: seq<Card>, e: seq<Card>, f: seq<Card>, x: Card)
    ensures multiset(a + b + c + d + e + f)[x]
         == multiset(a)[x] + multiset(b)[x] + multiset(c)[x] + multiset(d)[x] + multiset(e)[x] + multiset(f)[x]
  {
  }

  lemma RepeatEveryClassCount(n: nat, symbol: int, c: Card)
    ensures multiset(Repeat(n, EveryClass(symbol)))[c]
         == if c.Labyrinth? && IsClass(c.cls) && c.symbol == symbol then n else 0
  {
    RepeatCount(n, EveryClass(symbol), c);
    EveryClassCount(symbol, c);
  }

  lemma DoorsCount(c: Card)
    ensures multiset(Repeat(2, EveryDoor()))[c] == if c.Door? && IsClass(c.cls) then 2 else 0
  {
    RepeatCount(2, EveryDoor(), c);
    EveryDoorCount(c);
  }

  lemma DreamsCount(c: Card)
    ensures multiset(Repeat(10, [Dream(Nightmare)]))[c] == if c == Dream(Nightmare) then 10 else 0
  {
    RepeatCount(10, [Dream(Nightmare)], c);
  }

  /** The per-piece counts of the starting deck add up to `BasicCount`. */
  lemma CountsAddUp(c: Card, doors: nat, suns: nat, extra: nat, moons: nat, keys: nat, dreams: nat)
    requires doors == if c.Door? && IsClass(c.cls) then 2 else 0
    requires suns == if c.Labyrinth? && IsClass(c.cls) && c.symbol == Sun then 6 else 0
    requires extra == if c == Labyrinth(Observatory, Sun) then 3
                      else if c == Labyrinth(Aquarium, Sun) then 2
                      else if c == Labyrinth(Garden, Sun) then 1
                      else 0
    requires moons == if c.Labyrinth? && IsClass(c.cls) && c.symbol == Moon then 4 else 0
    requires keys == if c.Labyrinth? && IsClass(c.cls) && c.symbol == Key then 3 else 0
    requires dreams == if c == Dream(Nightmare) then 10 else 0
    ensures doors + suns + extra + moons + keys + dreams == BasicCount(c)
  {
  }

  lemma BasicDeckCount(c: Card)
    ensures multiset(BasicDeck())[c] == BasicCount(c)
  {
    var doors, suns, extra := Repeat(2, EveryDoor()), Repeat(6, EveryClass(Sun)), ExtraSuns();
    var moons, keys, dreams := Repeat(4, EveryClass(Moon)), Repeat(3, EveryClass(Key)), Repeat(10, [Dream(Nightmare)]);
    assert BasicDeck() == doors + suns + extra + moons + keys + dreams;
    CountOfSix(doors, suns, extra, moons, keys, dreams, c);
    DoorsCount(c);
    RepeatEveryClassCount(6, Sun, c);
    ExtraSunsCount(c);
    RepeatEveryClassCount(4, Moon, c);
    RepeatEveryClassCount(3, Key, c);
    DreamsCount(c);
    CountsAddUp(c, multiset(doors)[c], multiset(suns)[c], multiset(extra)[c],
                multiset(moons)[c], multiset(keys)[c], multiset(dreams)[c]);
  }

  lemma EveryClassLabyrinths(symbol: int)
    ensures Labyrinths(EveryClass(symbol)) == EveryClass(symbol)
  {
    var b := EveryClass(symbol);
    assert Labyrinths(b[3..]) == b[3..];
    assert b[2..][1..] == b[3..];
    assert Labyrinths(b[2..]) == b[2..];
    assert b[1..][1..] == b[2..];
    assert Labyrinths(b[1..]) == b[1..];
  }

  lemma EveryDoorLabyrinths()
    ensures Labyrinths(EveryDoor()) == []
  {
    var b := EveryDoor();
    assert Labyrinths(b[3..]) == [];
    assert b[2..][1..] == b[3..];
    assert Labyrinths(b[2..]) == [];
    assert b[1..][1..] == b[2..];
    assert Labyrinths(b[1..]) == [];
  }

  lemma ExtraSunsLabyrinths()
    ensures |Labyrinths(ExtraSuns())| == 6
  {
    var b := ExtraSuns();
    LabyrinthsAppend(b[..3], b[3..]);
    assert b == b[..3] + b[3..];
    var p, q := b[..3], b[3..];
    assert p[1..][1..] == p[2..] && q[1..][1..] == q[2..];
    assert |Labyrinths(p[2..])| == 1 && |Labyrinths(q[2..])| == 1;
  }

  /** The starting deck has 76 cards, 58 of them labyrinth cards. */
  lemma BasicDeckSize()
    ensures |BasicDeck()| == 76
    ensures |Labyrinths(BasicDeck())| == 58
  {
    var doors := Repeat(2, EveryDoor());
    var suns := Repeat(6, EveryClass(Sun));
    var moons := Repeat(4, EveryClass(Moon));
    var keys := Repeat(3, EveryClass(Key));
    var dreams := Repeat(10, [Dream(Nightmare)]);
    RepeatLabyrinths(2, EveryDoor());
    EveryDoorLabyrinths();
    RepeatLabyrinths(6, EveryClass(Sun));
    EveryClassLabyrinths(Sun);
    ExtraSunsLabyrinths();
    RepeatLabyrinths(4, EveryClass(Moon));
    EveryClassLabyrinths(Moon);
    RepeatLabyrinths(3, EveryClass(Key));
    EveryClassLabyrinths(Key);
    RepeatLabyrinths(10, [Dream(Nightmare)]);
    assert Labyrinths([Dream(Nightmare)]) == [];
    LabyrinthsAppend(doors, suns);
    LabyrinthsAppend(doors + suns, ExtraSuns());
    LabyrinthsAppend(doors + suns + ExtraSuns(), moons);
    LabyrinthsAppend(doors + suns + ExtraSuns() + moons, keys);
    LabyrinthsAppend(doors + suns + ExtraSuns() + moons + keys, dreams);
  }

  /** Every card of the starting deck in its stated number of copies. */
  lemma BasicDeckCounts()
    ensures forall c :: multiset(BasicDeck())[c] == BasicCount(c)
  {
    forall c ensures multiset(BasicDeck())[c] == BasicCount(c) {
      BasicDeckCount(c);
    }
  }

  /** Builds the starting deck with the source's counted append loops. */
  method NewBasicDeck() returns (d: seq<Card>)
    ensures d == BasicDeck()
    ensures |d| == 76
    ensures forall c :: multiset(d)[c] == BasicCount(c)
  {
    d := [];
    for i := 0 to 2
      invariant d == Repeat(i, EveryDoor())
    {
      ghost var before := d;
      d := d + [Door(Observatory)];
      d := d + [Door(Aquarium)];
      d := d + [Door(Garden)];
      d := d + [Door(Library)];
      assert d == before + EveryDoor();
    }
    ghost var doors := d;

    for i := 0 to 6
      invariant d == doors + Repeat(i, EveryClass(Sun))
    {
      ghost var before := d;
      d := d + [Labyrinth(Observatory, Sun)];
      d := d + [Labyrinth(Aquarium, Sun)];
      d := d + [Labyrinth(Garden, Sun)];
      d := d + [Labyrinth(Library, Sun)];
      assert d == before + EveryClass(Sun);
    }
    ghost var before := d;
    d := d + [Labyrinth(Observatory, Sun)];
    d := d + [Labyrinth(Observatory, Sun)];
    d := d + [Labyrinth(Observatory, Sun)];
    d := d + [Labyrinth(Aquarium, Sun)];
    d := d + [Labyrinth(Aquarium, Sun)];
    d := d + [Labyrinth(Garden, Sun)];
    assert d == before + ExtraSuns();
    ghost var suns := d;

    for i := 0 to 4
      invariant d == suns + Repeat(i, EveryClass(Moon))
    {
      ghost var before := d;
      d := d + [Labyrinth(Observatory, Moon)];
      d := d + [Labyrinth(Aquarium, Moon)];
      d := d + [Labyrinth(Garden, Moon)];
      d := d + [Labyrinth(Library, Moon)];
      assert d == before + EveryClass(Moon);
    }
    ghost var moons := d;

    for i := 0 to 3
      invariant d == moons + Repeat(i, EveryClass(Key))
    {
      ghost var before := d;
      d := d + [Labyrinth(Observatory, Key)];
      d := d + [Labyrinth(Aquarium, Key)];
      d := d + [Labyrinth(Garden, Key)];
      d := d + [Labyrinth(Library, Key)];
      assert d == before + EveryClass(Key);
    }
    ghost var keys := d;

    for i := 0 to 10
      invariant d == keys + Repeat(i, [Dream(Nightmare)])
    {
      d := d + [Dream(Nightmare)];
    }

    BasicDeckSize();
    BasicDeckCounts();
  }

  // ---------------------------------------------------------------------
  // Searching

  /** The position of the first copy of `x` in `s`. */
  function FirstIndexOf(s: seq<Card>, x: Card): (k: nat)
    requires x in s
    ensures k < |s| && s[k] == x && x !in s[..k]
  {
    if s[0] == x then 0 else 1 + FirstIndexOf(s[1..], x)
  }

  // ---------------------------------------------------------------------
  // Drawing, as the source writes it

  /** What a draw yields: the top card and the rest, the empty-deck error,
      or a run-time panic. */
  datatype DrawOutcome = Drawn(card: Card, rest: seq<Card>) | EmptyDeckError | Panic

  /** The source's draw: on a one-card deck it first sets the deck to nil
      and then slices it from position 1, which is out of range. */
  function DrawAsWritten(s: seq<Card>): (r: DrawOutcome)
    ensures r == EmptyDeckError <==> s == []
    ensures r == Panic <==> |s| == 1
    ensures |s| >= 2 ==> r == Drawn(s[0], s[1..])
  {
    if |s| == 0 then EmptyDeckError
    else
      var d := if |s| == 1 then [] else s;
      if 1 <= |d| then Drawn(s[0], d[1..]) else Panic
  }

  /** Where one pass of the dealing loop sends the card it looks at. */
  datatype PassOutcome = ToHand(card: LabyrinthCard) | ToPutBack(other: Card) | PassPanic

  /** One pass of the source's dealing loop over the deck `s`. The draw
      declares a second `card` inside its `if` statement, so the type
      switch looks at the function's own `card`, passed here as
      `inspected`. A failed draw panics, and so does the default branch's
      assertion to a labyrinth card when `inspected` holds no card. */
  function DealPassAsWritten(s: seq<Card>, inspected: Option<Card>): (r: PassOutcome)
    ensures r.ToHand? ==> s != [] && inspected == Some(r.card)
    ensures r.ToPutBack? ==> s != [] && inspected == Some(r.other) && !r.other.Labyrinth?
  {
    if s == [] then PassPanic
    else
      match inspected
      case None => PassPanic
      case Some(c) => if c.Labyrinth? then ToHand(c) else ToPutBack(c)
  }

  /** The function's own `card` is never assigned, so the first pass
      panics whatever the deck holds and no hand is ever dealt. Passing
      the drawn card instead sorts it as the loop intends. */
  lemma DealAsWrittenPanics(s: seq<Card>)
    ensures DealPassAsWritten(s, None) == PassPanic
    ensures s != [] ==>
      DealPassAsWritten(s, Some(s[0])) == (if s[0].Labyrinth? then ToHand(s[0]) else ToPutBack(s[0]))
  {
  }

  // ---------------------------------------------------------------------
  // Dealing a hand

  /** After drawing the first `k` cards of `saved`, the labyrinth cards
      went to the hand and the others to the put-back pile. */
  ghost predicate Dealing(saved: seq<Card>, k: nat, hand: seq<Card>, putBack: seq<Card>) {
    k <= |saved|
    && hand == Labyrinths(saved[..k]) && Labyrinths(putBack) == []
    && multiset(saved[..k]) == multiset(hand) + multiset(putBack)
    && |hand| + |putBack| == k
  }

  lemma DealingStep(saved: seq<Card>, k: nat, hand: seq<Card>, putBack: seq<Card>)
    requires k < |saved| && Dealing(saved, k, hand, putBack)
    ensures saved[k].Labyrinth? ==> Dealing(saved, k + 1, hand + [saved[k]], putBack)
    ensures !saved[k].Labyrinth? ==> Dealing(saved, k + 1, hand, putBack + [saved[k]])
  {
    var card := saved[k];
    assert saved[..k + 1] == saved[..k] + [card];
    LabyrinthsAppend(saved[..k], [card]);
    LabyrinthsAppend(putBack, [card]);
  }

  /** Once the hand is full, the rest of the deck plus the put-back pile
      is everything but the hand. */
  lemma DealingDone(saved: seq<Card>, k: nat, hand: seq<Card>, putBack: seq<Card>)
    requires Dealing(saved, k, hand, putBack) && |hand| == HandSize
    ensures HandSize <= |Labyrinths(saved)| && hand == Labyrinths(saved)[..HandSize]
    ensures multiset(hand) + multiset(saved[k..] + putBack) == multiset(saved)
    ensures |Labyrinths(saved[k..] + putBack)| == |Labyrinths(saved)| - HandSize
  {
    assert saved == saved[..k] + saved[k..];
    LabyrinthsAppend(saved[..k], saved[k..]);
    LabyrinthsAppend(saved[k..], putBack);
  }

  // ---------------------------------------------------------------------
  // The deck object

  class Deck {
    var cards: seq<Card>

    constructor (cards: seq<Card>)
      ensures this.cards == cards
    {
      this.cards := cards;
    }

    /** Fisher-Yates shuffle: for each position i from the top down, swap
        it with position js[i] in [0, i]. */
    method Shuffle(js: seq<nat>)
      requires IsSwapPlan(js, |cards|)
      modifies this
      ensures cards == Shuffled(old(cards), js)
      ensures |cards| == |old(cards)| && multiset(cards) == multiset(old(cards))
    {
      var i := 0;
      while i < |cards|
        invariant i <= |cards| == |old(cards)|
        invariant ShuffledFrom(cards, js, i) == Shuffled(old(cards), js)
      {
        var j := js[i];
        cards := cards[i := cards[j]][j := cards[i]];
        i := i + 1;
      }
      ShufflePermutes(old(cards), js);
    }

    /** Takes the top card; an empty deck is an error and stays empty. */
    method Draw() returns (r: Result<Card>)
      modifies this
      ensures old(cards) == [] ==> r == Err(EmptyDeck) && cards == old(cards)
      ensures old(cards) != [] ==> r == Ok(old(cards)[0]) && cards == old(cards)[1..]
    {
      if |cards| == 0 {
        return Err(EmptyDeck);
      }
      var card := cards[0];
      cards := cards[1..];
      return Ok(card);
    }

    /** Deals a hand: draws until five labyrinth cards are found, sets the
        door and dream cards drawn meanwhile aside, puts them back at the
        bottom and shuffles. The hand is the first five labyrinth cards of
        the deck. A deck with fewer than five labyrinth cards cannot deal
        a hand; that is an error and the deck is left as it was. */
    method DrawHand(js: seq<nat>) returns (r: Result<seq<LabyrinthCard>>)
      requires IsSwapPlan(js, |cards|)
      modifies this
      ensures r.Ok? <==> HandSize <= |Labyrinths(old(cards))|
      ensures r.Err? ==> r.error == InsufficientLabyrinthCards && cards == old(cards)
      ensures r.Ok? ==> r.value == Labyrinths(old(cards))[..HandSize]
      ensures r.Ok? ==> multiset(r.value) + multiset(cards) == multiset(old(cards))
      ensures r.Ok? ==> |Labyrinths(cards)| == |Labyrinths(old(cards))| - HandSize
      ensures r.Ok? ==> |cards| + HandSize == |old(cards)|
    {
      var saved := cards;
      var hand: seq<LabyrinthCard> := [];
      var putBack: seq<Card> := [];
      ghost var k := 0;
      while |hand| < HandSize
        invariant k <= |saved| && cards == saved[k..]
        invariant Dealing(saved, k, hand, putBack)
        invariant |hand| <= HandSize
        decreases |cards|
      {
        var drawn := Draw();
        if drawn.Err? {
          assert saved[..k] == saved;
          cards := saved;
          return Err(InsufficientLabyrinthCards);
        }
        var card := drawn.value;
        assert card == saved[k] && cards == saved[k + 1..];
        DealingStep(saved, k, hand, putBack);
        k := k + 1;
        match card
        case Door(_) =>
          putBack := putBack + [card];
        case Dream(_) =>
          putBack := putBack + [card];
        case Labyrinth(_, _) =>
          hand := hand + [card];
      }
      DealingDone(saved, k, hand, putBack);
      cards := cards + putBack;
      ghost var dealt := cards;
      Shuffle(js);
      LabyrinthsPermutation(dealt, cards);
      assert |multiset(Labyrinths(cards))| == |multiset(Labyrinths(dealt))|;
      r := Ok(hand);
    }

    /** Takes the first door of class `cls` out of the deck and reshuffles;
        when there is none, reports failure with the zero door and leaves
        the deck alone. */
    method RemoveDoor(cls: int, js: seq<nat>) returns (door: DoorCard, found: bool)
      requires IsSwapPlan(js, |cards|)
      modifies this
      ensures found <==> Door(cls) in old(cards)
      ensures found ==> door == Door(cls)
      ensures found ==> cards == Shuffled(RemoveAt(old(cards), FirstIndexOf(old(cards), Door(cls))), js)
      ensures found ==> multiset(cards) + multiset{door} == multiset(old(cards))
      ensures !found ==> door == Door(Observatory) && cards == old(cards)
    {
      for i := 0 to |cards|
        invariant cards == old(cards)
        invariant Door(cls) !in cards[..i]
      {
        var card := cards[i];
        if card.Door? && card.cls == cls {
          assert cards[..i + 1] == cards[..i] + [card];
          assert FirstIndexOf(old(cards), Door(cls)) == i;
          RemoveAtMultiset(cards, i);
          cards := RemoveAt(cards, i);
          Shuffle(js);
          return card, true;
        }
        assert cards[..i + 1] == cards[..i] + [card];
      }
      assert cards[..|cards|] == cards;
      return Door(Observatory), false;
    }
  }
}
