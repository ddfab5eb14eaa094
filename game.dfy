/** The rules engine: the game object owning the deck, the discard pile, the
    shared pool and each player's hand, labyrinth and doors; the phase
    machine of a turn; the discard phase with its prophecy, and the play
    phase with door discovery. The player's choices and the shuffles'
    random draws are parameters. */
module Games {
  import opened Errors
  import opened Cards
  import opened CardSlices
  import opened Decks
  import opened Players

  const PlayerOne := 0
  const PlayerTwo := 1

  datatype Phase = Play | Draw | Shuffle

  /** The menu of the play phase. */
  const DiscardChoice := 1
  const PlayChoice := 2
  const ShowHandsChoice := 3
  const ShowLabyrinthsChoice := 4

  /** A prophecy looks at this many cards from the top, at most. */
  const ProphecyWindow := 5

  // ---------------------------------------------------------------------
  // The phase machine

  /** The phase after one turn: in Play, discarding or playing moves on to
      Draw, whether or not the action succeeded, and any other choice stays
      in Play; Draw stays in Draw; Shuffle goes back to Play. */
  function NextPhase(phase: Phase, choice: int): (r: Phase)
    ensures phase == Draw ==> r == Draw
    ensures phase == Shuffle ==> r == Play
    ensures phase == Play ==> (r == Draw <==> choice == DiscardChoice || choice == PlayChoice)
    ensures phase == Play ==> r != Shuffle
  {
    match phase
    case Play => if choice == DiscardChoice || choice == PlayChoice then Draw else Play
    case Draw => Draw
    case Shuffle => Play
  }

  /** The phase after a run of turns with the given choices. */
  function PhaseAfter(phase: Phase, choices: seq<int>): Phase
    decreases |choices|
  {
    if choices == [] then phase else PhaseAfter(NextPhase(phase, choices[0]), choices[1..])
  }

  /** Nothing leads out of Draw. */
  lemma {:induction false} DrawIsFinal(choices: seq<int>)
    ensures PhaseAfter(Draw, choices) == Draw
    decreases |choices|
  {
    if choices != [] {
      DrawIsFinal(choices[1..]);
    }
  }

  /** From Play, the game reaches Draw exactly when some turn discards or
      plays, and it never reaches Shuffle. */
  lemma {:induction false} PlayLeadsToDraw(choices: seq<int>)
    ensures PhaseAfter(Play, choices) != Shuffle
    ensures PhaseAfter(Play, choices) == Draw
        <==> exists k :: 0 <= k < |choices| && (choices[k] == DiscardChoice || choices[k] == PlayChoice)
    decreases |choices|
  {
    if choices != [] {
      var c := choices[0];
      if c == DiscardChoice || c == PlayChoice {
        DrawIsFinal(choices[1..]);
      } else {
        PlayLeadsToDraw(choices[1..]);
        forall k | 0 <= k < |choices[1..]|
          ensures choices[1..][k] == choices[k + 1]
        {
        }
      }
    }
  }

  // ---------------------------------------------------------------------
  // Prophecy: the window, the choices and the new top of the deck

  /** How many cards a prophecy looks at: five, or the whole deck when it
      is shorter. */
  function ProphecyBound(n: nat): (b: nat)
    ensures b <= n && b <= ProphecyWindow
    ensures b == n || b == ProphecyWindow
  {
    if n < ProphecyWindow then n else ProphecyWindow
  }

  /** The indices 0 to n - 1 in order. */
  function Range(n: nat): (r: seq<int>)
    ensures |r| == n && forall k :: 0 <= k < n ==> r[k] == k
  {
    if n == 0 then [] else Range(n - 1) + [n - 1]
  }

  /** `order` names each index 0 to n - 1 exactly once. */
  predicate IsPermutation(order: seq<int>, n: nat) {
    multiset(order) == multiset(Range(n))
  }

  predicate InRange(order: seq<int>, n: nat) {
    forall k :: 0 <= k < |order| ==> 0 <= order[k] < n
  }

  lemma PermutationInRange(order: seq<int>, n: nat)
    requires IsPermutation(order, n)
    ensures |order| == n && InRange(order, n)
  {
    assert |order| == |multiset(order)| == |multiset(Range(n))| == n;
    forall k | 0 <= k < |order|
      ensures 0 <= order[k] < n
    {
      assert order[k] in multiset(Range(n));
    }
  }

  /** The cards of `t` at the positions `order` names, in that order;
      a position outside `t` names nothing. */
  function Pick(t: seq<Card>, order: seq<int>): (r: seq<Card>)
    ensures InRange(order, |t|) ==> |r| == |order|
  {
    if order == [] then []
    else
      assert InRange(order, |t|) ==> InRange(order[1..], |t|);
      (if 0 <= order[0] < |t| then [t[order[0]]] else []) + Pick(t, order[1..])
  }

  lemma {:induction false} PickAt(t: seq<Card>, order: seq<int>, k: nat)
    requires InRange(order, |t|) && k < |order|
    ensures Pick(t, order)[k] == t[order[k]]
  {
    if k > 0 {
      assert InRange(order[1..], |t|);
      PickAt(t, order[1..], k - 1);
    }
  }

  lemma {:induction false} PickRange(t: seq<Card>, n: nat)
    requires n <= |t|
    ensures InRange(Range(n), |t|) && Pick(t, Range(n)) == t[..n]
  {
    assert InRange(Range(n), |t|);
    forall k | 0 <= k < n
      ensures Pick(t, Range(n))[k] == t[k]
    {
      PickAt(t, Range(n), k);
    }
  }

  lemma {:induction false} PickAppend(t: seq<Card>, a: seq<int>, b: seq<int>)
    ensures Pick(t, a + b) == Pick(t, a) + Pick(t, b)
  {
    if a != [] {
      assert (a + b)[1..] == a[1..] + b;
      PickAppend(t, a[1..], b);
    } else {
      assert a + b == b;
    }
  }

  /** The cards picked by an order depend only on the positions it names,
      not on their order. */
  lemma {:induction false} PickPermutation(t: seq<Card>, o1: seq<int>, o2: seq<int>)
    requires multiset(o1) == multiset(o2)
    ensures multiset(Pick(t, o1)) == multiset(Pick(t, o2))
    decreases |o1|
  {
    if o1 == [] {
      assert |o2| == |multiset(o2)| == 0;
    } else {
      var x := o1[0];
      assert x in multiset(o2);
      var k :| 0 <= k < |o2| && o2[k] == x;
      var a, b, rest := o2[..k], o2[k + 1..], o1[1..];
      RemoveAtSplits(o2, k);
      assert o1 == [x] + rest;
      RemoveMatchingHeads(o1, o2, k);
      PickPermutation(t, rest, a + b);
      PickAppend(t, [x], rest);
      PickSplice(t, a, x, b);
    }
  }

  lemma PickSplice(t: seq<Card>, a: seq<int>, x: int, b: seq<int>)
    ensures multiset(Pick(t, a + [x] + b)) == multiset(Pick(t, [x])) + multiset(Pick(t, a + b))
  {
    PickAppend(t, a, [x]);
    PickAppend(t, a + [x], b);
    PickAppend(t, a, b);
  }

  /** The top `|order|` positions of `t` take the cards `order` names, all
      read before any is overwritten; the cards below stay put. */
  function Reorder(t: seq<Card>, order: seq<int>): (r: seq<Card>)
    requires |order| <= |t| && InRange(order, |t|)
    ensures |r| == |t|
  {
    Pick(t, order) + t[|order|..]
  }

  /** Position k of the top takes the card at `order[k]`; every card below
      the top keeps its position. */
  lemma ReorderPlaces(t: seq<Card>, order: seq<int>)
    requires |order| <= |t| && InRange(order, |t|)
    ensures forall k :: 0 <= k < |order| ==> Reorder(t, order)[k] == t[order[k]]
    ensures forall k :: |order| <= k < |t| ==> Reorder(t, order)[k] == t[k]
  {
    forall k | 0 <= k < |order|
      ensures Reorder(t, order)[k] == t[order[k]]
    {
      PickAt(t, order, k);
    }
  }

  /** Reordering the window by a permutation of its positions keeps the
      cards of the deck. */
  lemma ReorderPermutes(t: seq<Card>, order: seq<int>)
    requires IsPermutation(order, |order|) && |order| <= |t|
    ensures InRange(order, |t|) && multiset(Reorder(t, order)) == multiset(t)
  {
    var n := |order|;
    PermutationInRange(order, n);
    PickRange(t, n);
    PickPermutation(t, order, Range(n));
    assert t == t[..n] + t[n..];
  }

  /** Without the permutation check, a repeated index copies one card over
      another: a three-card deck whose bottom card is set aside, reordered
      by the indices 0 0, ends with two copies of its top card and without
      the second card. */
  lemma ReorderDuplicates()
    ensures var s := [Labyrinth(Observatory, Sun), Labyrinth(Aquarium, Moon), Dream(Nightmare)];
      var t := RemoveAt(s, 2);
      Reorder(t, [0, 0]) == [Labyrinth(Observatory, Sun), Labyrinth(Observatory, Sun)]
      && multiset(Reorder(t, [0, 0])) != multiset(t)
  {
    var s := [Labyrinth(Observatory, Sun), Labyrinth(Aquarium, Moon), Dream(Nightmare)];
    var t := RemoveAt(s, 2);
    assert t == [Labyrinth(Observatory, Sun), Labyrinth(Aquarium, Moon)];
    ReorderPlaces(t, [0, 0]);
    assert multiset(Reorder(t, [0, 0]))[Labyrinth(Aquarium, Moon)] == 0;
    assert multiset(t)[Labyrinth(Aquarium, Moon)] == 1;
  }

  /** Validates the prophecy's choices for a deck `s`: the card to set
      aside must lie in the window, and when three or more cards are shown
      the new order of the rest must be a permutation of their positions. */
  function ProphecyCheck(s: seq<Card>, pick: int, order: seq<int>): (r: Option<Error>)
    ensures r.None? <==> (0 <= pick < ProphecyBound(|s|)
      && (ProphecyBound(|s|) >= 3 ==> IsPermutation(order, ProphecyBound(|s|) - 1)))
    ensures r == Some(InvalidIndex) <==> !(0 <= pick < ProphecyBound(|s|))
  {
    var bound := ProphecyBound(|s|);
    if pick < 0 || pick >= bound then Some(InvalidIndex)
    else if bound >= 3 && !IsPermutation(order, bound - 1) then Some(InvalidPermutation)
    else None
  }

  /** Accepted choices pick a card of the window and, when three or more
      cards are shown, order the rest by positions inside what remains. */
  lemma CheckedOrder(s: seq<Card>, pick: int, order: seq<int>)
    requires ProphecyCheck(s, pick, order).None?
    ensures 0 <= pick < ProphecyBound(|s|)
    ensures ProphecyBound(|s|) >= 3 ==> |order| == ProphecyBound(|s|) - 1 && InRange(order, |s| - 1)
  {
    if ProphecyBound(|s|) >= 3 {
      PermutationInRange(order, ProphecyBound(|s|) - 1);
    }
  }

  /** The deck after an accepted prophecy: the picked card is taken out and
      the rest of the window is reordered. */
  function Foretold(s: seq<Card>, pick: int, order: seq<int>): (r: seq<Card>)
    requires ProphecyCheck(s, pick, order).None?
    ensures |r| == |s| - 1
  {
    var bound := ProphecyBound(|s|);
    var t := RemoveAt(s, pick);
    CheckedOrder(s, pick, order);
    if bound >= 3 then Reorder(t, order)
    else t
  }

  /** An accepted prophecy takes exactly the picked card out of the deck. */
  lemma ForetoldConserves(s: seq<Card>, pick: int, order: seq<int>)
    requires ProphecyCheck(s, pick, order).None?
    ensures multiset(Foretold(s, pick, order)) + multiset{s[pick]} == multiset(s)
  {
    var bound := ProphecyBound(|s|);
    var t := RemoveAt(s, pick);
    RemoveAtMultiset(s, pick);
    if bound >= 3 {
      ReorderPermutes(t, order);
    }
  }

  /** An accepted prophecy puts the cards `order` names on top and leaves
      every card below the window where it was, one place higher. */
  lemma ForetoldPlaces(s: seq<Card>, pick: int, order: seq<int>)
    requires ProphecyCheck(s, pick, order).None?
    ensures forall k :: ProphecyBound(|s|) - 1 <= k < |s| - 1 ==> Foretold(s, pick, order)[k] == s[k + 1]
    ensures ProphecyBound(|s|) >= 3 ==>
      |order| == ProphecyBound(|s|) - 1 && InRange(order, |s| - 1)
      && forall k :: 0 <= k < |order| ==> Foretold(s, pick, order)[k] == RemoveAt(s, pick)[order[k]]
  {
    var bound := ProphecyBound(|s|);
    var t := RemoveAt(s, pick);
    var f := Foretold(s, pick, order);
    if bound >= 3 {
      CheckedOrder(s, pick, order);
      assert f == Reorder(t, order);
      ReorderPlaces(t, order);
    } else {
      assert f == t;
    }
    forall k | bound - 1 <= k < |s| - 1
      ensures f[k] == s[k + 1]
    {
      assert f[k] == t[k];
    }
  }

  /** The source sets the picked card aside by splicing it out of the deck
      and nothing more, so it is in neither the deck nor the discard pile. */
  function ProphecyDiscardAsWritten(s: seq<Card>, discard: seq<Card>, pick: nat)
    : (r: (seq<Card>, seq<Card>))
    requires pick < |s|
  {
    (RemoveAt(s, pick), discard)
  }

  lemma ProphecyAsWrittenLosesCard(s: seq<Card>, discard: seq<Card>, pick: nat)
    requires pick < |s|
    ensures var (d, p) := ProphecyDiscardAsWritten(s, discard, pick);
      |d| + |p| == |s| + |discard| - 1
      && multiset(d) + multiset(p) + multiset{s[pick]} == multiset(s) + multiset(discard)
  {
    RemoveAtMultiset(s, pick);
  }

  /** The source's test around each reorder: it applies the new order only
      when the scan reported an error and also filled all `count` values.
      The scan reports an error exactly when it filled fewer. */
  function ReorderGuardAsWritten(count: nat, filled: nat): bool
    requires filled <= count
  {
    var failed := filled < count;
    failed && filled == count
  }

  /** As written, the reorder is never applied, whatever the input. */
  lemma ReorderGuardNeverHolds(count: nat, filled: nat)
    requires filled <= count
    ensures !ReorderGuardAsWritten(count, filled)
  {
  }

  /** Writing the top two, three or four positions one by one, each from
      the pile as it was before any write, gives the reordered pile. */
  lemma ReorderByWrites(c: seq<Card>, order: seq<int>)
    requires 2 <= |order| <= 4 && |order| <= |c| && InRange(order, |c|)
    ensures |order| == 4 ==>
      c[0 := c[order[0]]][1 := c[order[1]]][2 := c[order[2]]][3 := c[order[3]]] == Reorder(c, order)
    ensures |order| == 3 ==>
      c[0 := c[order[0]]][1 := c[order[1]]][2 := c[order[2]]] == Reorder(c, order)
    ensures |order| == 2 ==>
      c[0 := c[order[0]]][1 := c[order[1]]] == Reorder(c, order)
  {
    ReorderPlaces(c, order);
    var u := if |order| == 4 then c[0 := c[order[0]]][1 := c[order[1]]][2 := c[order[2]]][3 := c[order[3]]]
      else if |order| == 3 then c[0 := c[order[0]]][1 := c[order[1]]][2 := c[order[2]]]
      else c[0 := c[order[0]]][1 := c[order[1]]];
    assert forall k :: 0 <= k < |c| ==> u[k] == Reorder(c, order)[k];
  }

  /** The deck's part of an accepted prophecy, in place: the card at
      `pick` is spliced out of the window and returned, then the rest of
      the window is rewritten from the positions `order` names, all read
      before any is written. */
  method Foresee(d: Deck, pick: int, order: seq<int>) returns (card: Card)
    requires ProphecyCheck(d.cards, pick, order).None?
    modifies d
    ensures card == old(d.cards)[pick]
    ensures d.cards == Foretold(old(d.cards), pick, order)
  {
    var bound := ProphecyWindow;
    if |d.cards| < bound {
      bound := |d.cards|;
    }
    CheckedOrder(d.cards, pick, order);
    card := d.cards[pick];
    d.cards := RemoveAt(d.cards, pick);
    var c := d.cards;
    if bound >= 3 {
      ReorderByWrites(c, order);
      if bound == 5 {
        d.cards := c[0 := c[order[0]]][1 := c[order[1]]][2 := c[order[2]]][3 := c[order[3]]];
      } else if bound == 4 {
        d.cards := c[0 := c[order[0]]][1 := c[order[1]]][2 := c[order[2]]];
      } else {
        d.cards := c[0 := c[order[0]]][1 := c[order[1]]];
      }
    }
  }

  // ---------------------------------------------------------------------
  // Where the cards lie

  /** The cards of one kind of pile over both players. */
  ghost function Seats(piles: seq<seq<Card>>): multiset<Card>
    requires |piles| == 2
  {
    multiset(piles[PlayerOne]) + multiset(piles[PlayerTwo])
  }

  /** Replacing one player's pile replaces its cards among both players'. */
  lemma SeatsUpdate(piles: seq<seq<Card>>, p: nat, pile: seq<Card>)
    requires |piles| == 2 && p < 2
    ensures Seats(piles[p := pile]) + multiset(piles[p]) == Seats(piles) + multiset(pile)
  {
    if p == PlayerOne {
      assert piles[p := pile][PlayerTwo] == piles[PlayerTwo];
    } else {
      assert piles[p := pile][PlayerOne] == piles[PlayerOne];
    }
  }

  /** Every card of the game: the deck, the discard pile, the shared pool
      and both players' hands, labyrinths and doors. */
  ghost function Tally(deck: seq<Card>, discard: seq<Card>, shared: seq<Card>,
                       hands: seq<seq<LabyrinthCard>>, labs: seq<seq<LabyrinthCard>>,
                       doors: seq<seq<DoorCard>>): multiset<Card>
    requires |hands| == 2 && |labs| == 2 && |doors| == 2
  {
    multiset(deck) + multiset(discard) + multiset(shared) + Seats(hands) + Seats(labs) + Seats(doors)
  }

  /** The cards of a new game: the deck dealt from the starting deck and
      the two hands, all other piles empty. */
  lemma TallyDeal(basic: seq<Card>, mid: seq<Card>, rest: seq<Card>,
                  first: seq<LabyrinthCard>, second: seq<LabyrinthCard>)
    requires multiset(first) + multiset(mid) == multiset(basic)
    requires multiset(second) + multiset(rest) == multiset(mid)
    ensures Tally(rest, [], [], [first, second], [[], []], [[], []]) == multiset(basic)
  {
    var t := Tally(rest, [], [], [first, second], [[], []], [[], []]);
    assert t == multiset(rest) + multiset(first) + multiset(second);
    forall x
      ensures t[x] == multiset(basic)[x]
    {
      assert (multiset(first) + multiset(mid))[x] == multiset(basic)[x];
      assert (multiset(second) + multiset(rest))[x] == multiset(mid)[x];
    }
  }

  /** Playing a card moves it from the hand or the shared pool to the end
      of the player's labyrinth. */
  lemma TallyPlay(deck: seq<Card>, discard: seq<Card>, shared: seq<LabyrinthCard>,
                  hands: seq<seq<LabyrinthCard>>, labs: seq<seq<LabyrinthCard>>,
                  doors: seq<seq<DoorCard>>, p: nat, i: int)
    requires |hands| == 2 && |labs| == 2 && |doors| == 2 && p < 2
    requires Addresses(hands[p], shared, i)
    ensures var (h, s) := AfterRemoval(hands[p], shared, i);
      var card := CardAt(hands[p], shared, i).0;
      Tally(deck, discard, s, hands[p := h], labs[p := labs[p] + [card]], doors)
        == Tally(deck, discard, shared, hands, labs, doors)
  {
    var (h, s) := AfterRemoval(hands[p], shared, i);
    var card := CardAt(hands[p], shared, i).0;
    RemovalTakesCard(hands[p], shared, i);
    SeatsUpdate(hands, p, h);
    SeatsUpdate(labs, p, labs[p] + [card]);
    PlayBalance(multiset(deck), multiset(discard), multiset(shared), Seats(hands), Seats(labs), Seats(doors),
                multiset(s), Seats(hands[p := h]), Seats(labs[p := labs[p] + [card]]),
                multiset(hands[p]), multiset(h), multiset(labs[p]), multiset(labs[p] + [card]), multiset{card});
  }

  /** The multiset arithmetic of a play: the card `m` leaves the hand or
      the shared pool and joins a labyrinth. */
  lemma PlayBalance(a: multiset<Card>, b: multiset<Card>, c: multiset<Card>,
                    d: multiset<Card>, e: multiset<Card>, f: multiset<Card>,
                    c2: multiset<Card>, d2: multiset<Card>, e2: multiset<Card>,
                    hp: multiset<Card>, h: multiset<Card>, lp: multiset<Card>, lp2: multiset<Card>,
                    m: multiset<Card>)
    requires d2 + hp == d + h && e2 + lp == e + lp2 && lp2 == lp + m && h + c2 + m == hp + c
    ensures a + b + c2 + d2 + e2 + f == a + b + c + d + e + f
  {
    forall x
      ensures (a + b + c2 + d2 + e2 + f)[x] == (a + b + c + d + e + f)[x]
    {
      assert (d2 + hp)[x] == (d + h)[x];
      assert (e2 + lp)[x] == (e + lp2)[x];
      assert (h + c2 + m)[x] == (hp + c)[x];
    }
  }

  /** Discarding moves a hand card to the discard pile. */
  lemma TallyDiscard(deck: seq<Card>, discard: seq<Card>, shared: seq<LabyrinthCard>,
                     hands: seq<seq<LabyrinthCard>>, labs: seq<seq<LabyrinthCard>>,
                     doors: seq<seq<DoorCard>>, p: nat, i: nat)
    requires |hands| == 2 && |labs| == 2 && |doors| == 2 && p < 2 && i < |hands[p]|
    ensures Tally(deck, discard + [hands[p][i]], shared, hands[p := RemoveAt(hands[p], i)], labs, doors)
         == Tally(deck, discard, shared, hands, labs, doors)
  {
    RemoveAtMultiset(hands[p], i);
    SeatsUpdate(hands, p, RemoveAt(hands[p], i));
  }

  /** A prophecy moves the picked card from the deck to the discard pile
      and only rearranges the rest. */
  lemma TallyProphecy(deck: seq<Card>, discard: seq<Card>, shared: seq<LabyrinthCard>,
                      hands: seq<seq<LabyrinthCard>>, labs: seq<seq<LabyrinthCard>>,
                      doors: seq<seq<DoorCard>>, pick: int, order: seq<int>)
    requires |hands| == 2 && |labs| == 2 && |doors| == 2
    requires ProphecyCheck(deck, pick, order).None?
    ensures Tally(Foretold(deck, pick, order), discard + [deck[pick]], shared, hands, labs, doors)
         == Tally(deck, discard, shared, hands, labs, doors)
  {
    ForetoldConserves(deck, pick, order);
  }

  /** Shuffling the deck keeps every card in the game. */
  lemma TallyShuffle(deck: seq<Card>, shuffled: seq<Card>, discard: seq<Card>, shared: seq<LabyrinthCard>,
                     hands: seq<seq<LabyrinthCard>>, labs: seq<seq<LabyrinthCard>>,
                     doors: seq<seq<DoorCard>>)
    requires |hands| == 2 && |labs| == 2 && |doors| == 2
    requires multiset(shuffled) == multiset(deck)
    ensures Tally(shuffled, discard, shared, hands, labs, doors) == Tally(deck, discard, shared, hands, labs, doors)
  {
  }

  /** Discovering a door moves it from the deck to the player's doors. */
  lemma TallyDoor(deck: seq<Card>, rest: seq<Card>, discard: seq<Card>, shared: seq<LabyrinthCard>,
                  hands: seq<seq<LabyrinthCard>>, labs: seq<seq<LabyrinthCard>>,
                  doors: seq<seq<DoorCard>>, p: nat, door: DoorCard)
    requires |hands| == 2 && |labs| == 2 && |doors| == 2 && p < 2
    requires multiset(rest) + multiset{door} == multiset(deck)
    ensures Tally(rest, discard, shared, hands, labs, doors[p := doors[p] + [door]])
         == Tally(deck, discard, shared, hands, labs, doors)
  {
    SeatsUpdate(doors, p, doors[p] + [door]);
  }

  /** The deal of a new game: the starting deck shuffled, a hand for the
      first player and, in a game of two, one for the second. */
  method Deal(n: int, js0: seq<nat>, js1: seq<nat>, js2: seq<nat>)
    returns (d: Deck, first: seq<LabyrinthCard>, second: seq<LabyrinthCard>)
    requires n == 1 || n == 2
    requires IsSwapPlan(js0, 76) && IsSwapPlan(js1, 76) && IsSwapPlan(js2, 71)
    ensures fresh(d)
    ensures |first| == HandSize
    ensures n == 1 ==> second == []
    ensures n == 2 ==> |second| == HandSize
    ensures |d.cards| == 76 - n * HandSize
    ensures forall c :: Tally(d.cards, [], [], [first, second], [[], []], [[], []])[c] == BasicCount(c)
  {
    var basic := NewBasicDeck();
    d := new Deck(basic);
    BasicDeckSize();
    d.Shuffle(js0);
    LabyrinthsPermutation(basic, d.cards);
    assert |multiset(Labyrinths(d.cards))| == |multiset(Labyrinths(basic))|;
    var dealt := d.DrawHand(js1);
    first := dealt.value;
    var mid := d.cards;
    second := [];
    if n == 2 {
      dealt := d.DrawHand(js2);
      second := dealt.value;
    }
    TallyDeal(basic, mid, d.cards, first, second);
  }

  // ---------------------------------------------------------------------
  // The game object

  class Game {
    const deck: Deck
    var discardPile: seq<Card>
    var shared: seq<LabyrinthCard>
    var hands: seq<seq<LabyrinthCard>>
    var labyrinths: seq<seq<LabyrinthCard>>
    var doors: seq<seq<DoorCard>>
    const numPlayers: int
    const curPlayer: nat
    var phase: Phase
    /** The cards the game was set up with. */
    ghost const total: multiset<Card>

    /** The shape of the state: two slots per kind of player pile, one or
        two players, and the current one among them. */
    ghost predicate WellFormed()
      reads this
    {
      |hands| == 2 && |labyrinths| == 2 && |doors| == 2
      && (numPlayers == 1 || numPlayers == 2) && curPlayer < numPlayers
    }

    /** Every card in the game, wherever it lies. */
    ghost function AllCards(): multiset<Card>
      requires WellFormed()
      reads this, deck
    {
      Tally(deck.cards, discardPile, shared, hands, labyrinths, doors)
    }

    /** The invariant every action keeps: no labyrinth shows two equal
        symbols in a row, the second player's piles stay empty in a
        solitaire game, and no card is lost or made up. */
    ghost predicate Sound()
      reads this, deck
    {
      WellFormed()
      && NoAdjacentSymbols(labyrinths[PlayerOne]) && NoAdjacentSymbols(labyrinths[PlayerTwo])
      && (numPlayers == 1 ==> hands[PlayerTwo] == [] && labyrinths[PlayerTwo] == [] && doors[PlayerTwo] == [])
      && AllCards() == total
    }

    /** The invariant between turns: in any phase but Draw the current
        player holds a full hand. */
    ghost predicate Valid()
      reads this, deck
    {
      Sound() && (phase != Draw ==> |hands[curPlayer]| == HandSize)
    }

    /** The deck and every pile are as they were. */
    twostate predicate PilesKept()
      reads this, deck
    {
      deck.cards == old(deck.cards) && discardPile == old(discardPile) && shared == old(shared)
      && hands == old(hands) && labyrinths == old(labyrinths) && doors == old(doors)
    }

    /** The piles once the current player has discarded hand card `i`: the
        card is on the discard pile; a key then foretells with `pick` and
        `order`, which also sets the picked card aside and reorders the
        window when the choices fit it, and leaves the deck alone when they
        do not. */
    twostate predicate Discarded(i: int, pick: int, order: seq<int>)
      reads this, deck
    {
      old(WellFormed()) && 0 <= i < |old(hands[curPlayer])|
      && var card := old(hands[curPlayer])[i];
      && hands == old(hands)[curPlayer := RemoveAt(old(hands[curPlayer]), i)]
      && shared == old(shared) && labyrinths == old(labyrinths) && doors == old(doors)
      && (card.symbol != Key ==>
            discardPile == old(discardPile) + [card] && deck.cards == old(deck.cards))
      && (card.symbol == Key && ProphecyCheck(old(deck.cards), pick, order).None? ==>
            deck.cards == Foretold(old(deck.cards), pick, order)
            && discardPile == old(discardPile) + [card] + [old(deck.cards)[pick]])
      && (card.symbol == Key && ProphecyCheck(old(deck.cards), pick, order).Some? ==>
            deck.cards == old(deck.cards) && discardPile == old(discardPile) + [card])
    }

    /** The piles once the current player has tried to play hand card `i`:
        a card with the labyrinth end's symbol moves nothing; otherwise it
        joins the labyrinth, and when the labyrinth then ends in three
        cards of a class whose door the deck holds, that door leaves the
        deck for the player's doors around the shuffles `js1` and `js2`. */
    twostate predicate Played(i: int, js1: seq<nat>, js2: seq<nat>)
      reads this, deck
    {
      old(WellFormed()) && 0 <= i < |old(hands[curPlayer])|
      && IsSwapPlan(js1, |old(deck.cards)|) && IsSwapPlan(js2, |old(deck.cards)|)
      && var card := old(hands[curPlayer])[i];
      var lab := old(labyrinths[curPlayer]) + [card];
      var (cls, ok) := CanDiscoverDoor(lab);
      && (!Placeable(old(labyrinths[curPlayer]), card) ==> PilesKept())
      && (Placeable(old(labyrinths[curPlayer]), card) ==>
            labyrinths == old(labyrinths)[curPlayer := lab]
            && hands == old(hands)[curPlayer := RemoveAt(old(hands[curPlayer]), i)]
            && shared == old(shared) && discardPile == old(discardPile))
      && (Placeable(old(labyrinths[curPlayer]), card) && ok && Door(cls) in old(deck.cards) ==>
            doors == old(doors)[curPlayer := old(doors[curPlayer]) + [Door(cls)]]
            && deck.cards == Shuffled(Shuffled(RemoveAt(old(deck.cards),
                                 FirstIndexOf(old(deck.cards), Door(cls))), js1), js2))
      && (Placeable(old(labyrinths[curPlayer]), card) && !(ok && Door(cls) in old(deck.cards)) ==>
            doors == old(doors) && deck.cards == old(deck.cards))
    }

    /** Sets up a game for `n` players: the starting deck, shuffled, and a
        hand dealt to each player. */
    constructor (n: int, js0: seq<nat>, js1: seq<nat>, js2: seq<nat>)
      requires n == 1 || n == 2
      requires IsSwapPlan(js0, 76) && IsSwapPlan(js1, 76) && IsSwapPlan(js2, 71)
      ensures WellFormed() && fresh(deck)
      ensures numPlayers == n && curPlayer == PlayerOne && phase == Play
      ensures discardPile == [] && shared == []
      ensures labyrinths == [[], []] && doors == [[], []]
      ensures |hands[PlayerOne]| == HandSize
      ensures n == 2 ==> |hands[PlayerTwo]| == HandSize
      ensures |deck.cards| == 76 - n * HandSize
      ensures Valid()
      ensures forall c :: total[c] == BasicCount(c)
    {
      var d, first, second := Deal(n, js0, js1, js2);
      ghost var t := Tally(d.cards, [], [], [first, second], [[], []], [[], []]);
      deck := d;
      discardPile := [];
      shared := [];
      hands := [first, second];
      labyrinths := [[], []];
      doors := [[], []];
      numPlayers := n;
      curPlayer := PlayerOne;
      phase := Play;
      total := t;
    }

    /** Starts a game, rejecting a player count other than one or two. */
    static method NewGame(n: int, js0: seq<nat>, js1: seq<nat>, js2: seq<nat>) returns (r: Result<Game>)
      requires IsSwapPlan(js0, 76) && IsSwapPlan(js1, 76) && IsSwapPlan(js2, 71)
      ensures r.Err? <==> n != 1 && n != 2
      ensures r.Err? ==> r.error == InvalidPlayerCount
      ensures r.Ok? ==> (fresh(r.value) && r.value.Valid() && r.value.numPlayers == n
        && (forall c :: r.value.total[c] == BasicCount(c))
        && r.value.phase == Play && r.value.curPlayer == PlayerOne
        && r.value.labyrinths[PlayerOne] == [] && r.value.doors[PlayerOne] == []
        && r.value.shared == [])
    {
      if n != 1 && n != 2 {
        return Err(InvalidPlayerCount);
      }
      var g := new Game(n, js0, js1, js2);
      return Ok(g);
    }

    /** Takes the card at index `i` out of the current player's hand or the
        shared pool. */
    method RemoveCard(i: int) returns (card: LabyrinthCard)
      requires WellFormed() && Addresses(hands[curPlayer], shared, i)
      modifies this
      ensures WellFormed()
      ensures card == CardAt(old(hands[curPlayer]), old(shared), i).0
      ensures (hands[curPlayer], shared) == AfterRemoval(old(hands[curPlayer]), old(shared), i)
      ensures hands == old(hands)[curPlayer := hands[curPlayer]]
      ensures labyrinths == old(labyrinths) && doors == old(doors)
      ensures discardPile == old(discardPile) && phase == old(phase)
    {
      var pile;
      card, pile := CardAt(hands[curPlayer], shared, i).0, CardAt(hands[curPlayer], shared, i).1;
      if pile == Hand {
        hands := hands[curPlayer := RemoveAt(hands[curPlayer], i)];
      } else {
        shared := RemoveAt(shared, i - SharedOffset);
      }
    }

    /** Adds a door to the current player's doors. */
    method AddDoor(door: DoorCard)
      requires WellFormed()
      modifies this
      ensures WellFormed()
      ensures doors == old(doors)[curPlayer := old(doors[curPlayer]) + [door]]
      ensures hands == old(hands) && shared == old(shared) && labyrinths == old(labyrinths)
      ensures discardPile == old(discardPile) && phase == old(phase)
    {
      doors := doors[curPlayer := doors[curPlayer] + [door]];
    }

    /** Plays the card at index `i` to the end of the current player's
        labyrinth, unless the labyrinth ends in the same symbol. */
    method PlayCardAt(i: int) returns (r: Option<Error>)
      requires Sound() && Addresses(hands[curPlayer], shared, i)
      modifies this
      ensures Sound()
      ensures var card := CardAt(old(hands[curPlayer]), old(shared), i).0;
        && (r.None? <==> Placeable(old(labyrinths[curPlayer]), card))
        && (r.Some? ==> r == Some(AdjacentSymbols) && unchanged(this))
        && (r.None? ==>
              labyrinths == old(labyrinths)[curPlayer := old(labyrinths[curPlayer]) + [card]]
              && (hands[curPlayer], shared) == AfterRemoval(old(hands[curPlayer]), old(shared), i)
              && hands == old(hands)[curPlayer := hands[curPlayer]]
              && doors == old(doors) && discardPile == old(discardPile) && phase == old(phase))
    {
      var card := CardAt(hands[curPlayer], shared, i).0;
      var (end, ok) := LabyrinthEnd(labyrinths[curPlayer]);
      if ok && card.symbol == end.symbol {
        return Some(AdjacentSymbols);
      }
      Place(i);
      return None;
    }

    /** Moves the card at index `i` to the end of the current player's
        labyrinth, which does not end in the card's symbol. */
    method Place(i: int)
      requires Sound() && Addresses(hands[curPlayer], shared, i)
      requires Placeable(labyrinths[curPlayer], CardAt(hands[curPlayer], shared, i).0)
      modifies this
      ensures Sound()
      ensures labyrinths == old(labyrinths)[curPlayer :=
                old(labyrinths[curPlayer]) + [CardAt(old(hands[curPlayer]), old(shared), i).0]]
      ensures (hands[curPlayer], shared) == AfterRemoval(old(hands[curPlayer]), old(shared), i)
      ensures hands == old(hands)[curPlayer := hands[curPlayer]]
      ensures doors == old(doors) && discardPile == old(discardPile) && phase == old(phase)
    {
      ghost var (d0, dis0, s0, h0, l0, ds0) := (deck.cards, discardPile, shared, hands, labyrinths, doors);
      ghost var after := AfterRemoval(h0[curPlayer], s0, i);
      ghost var card0 := CardAt(h0[curPlayer], s0, i).0;
      TallyPlay(d0, dis0, s0, h0, l0, ds0, curPlayer, i);
      PlacingKeepsSymbolsApart(l0[curPlayer], card0);
      var card := RemoveCard(i);
      labyrinths := labyrinths[curPlayer := labyrinths[curPlayer] + [card]];
      Retallied(d0, dis0, after.1, h0[curPlayer := after.0], l0[curPlayer := l0[curPlayer] + [card0]], ds0);
    }

    /** The piles hold the cards the game was set up with once they equal
        piles that did. */
    lemma Retallied(d: seq<Card>, dis: seq<Card>, s: seq<LabyrinthCard>, h: seq<seq<LabyrinthCard>>,
                    l: seq<seq<LabyrinthCard>>, ds: seq<seq<DoorCard>>)
      requires WellFormed()
      requires deck.cards == d && discardPile == dis && shared == s
      requires hands == h && labyrinths == l && doors == ds
      requires Tally(d, dis, s, h, l, ds) == total
      ensures AllCards() == total
    {
    }

    /** Discards the card at index `i` of the current player's hand; a key
        starts a prophecy with the choices `pick` and `order`. */
    method DiscardPhase(i: int, pick: int, order: seq<int>) returns (r: Option<Error>)
      requires Sound() && |hands[curPlayer]| == HandSize
      modifies this, deck
      ensures Sound()
      ensures !(0 <= i < HandSize) ==> r == Some(InvalidIndex) && unchanged(this) && unchanged(deck)
      ensures 0 <= i < HandSize ==>
        Discarded(i, pick, order) && phase == old(phase)
        && (old(hands[curPlayer])[i].symbol != Key ==> r.None?)
        && (old(hands[curPlayer])[i].symbol == Key ==> r == ProphecyCheck(old(deck.cards), pick, order))
    {
      if i < 0 || i >= HandSize {
        return Some(InvalidIndex);
      }
      ghost var (d0, dis0, h0) := (deck.cards, discardPile, hands);
      TallyDiscard(d0, dis0, shared, h0, labyrinths, doors, curPlayer, i);
      var card := RemoveCard(i);
      discardPile := discardPile + [card];
      Retallied(d0, dis0 + [h0[curPlayer][i]], shared, h0[curPlayer := RemoveAt(h0[curPlayer], i)], labyrinths, doors);
      r := None;
      if card.symbol == Key {
        r := Prophecy(pick, order);
      }
    }

    /** A prophecy: of the top cards, up to five, the one at `pick` goes to
        the discard pile and the rest are put back on top in the order
        `order` gives. Choices that do not fit the window change nothing. */
    method Prophecy(pick: int, order: seq<int>) returns (r: Option<Error>)
      requires Sound()
      modifies this, deck
      ensures Sound()
      ensures r == ProphecyCheck(old(deck.cards), pick, order)
      ensures r.None? ==> (deck.cards == Foretold(old(deck.cards), pick, order)
        && discardPile == old(discardPile) + [old(deck.cards)[pick]])
      ensures r.Some? ==> deck.cards == old(deck.cards) && discardPile == old(discardPile)
      ensures hands == old(hands) && shared == old(shared) && labyrinths == old(labyrinths)
      ensures doors == old(doors) && phase == old(phase)
    {
      r := ProphecyCheck(deck.cards, pick, order);
      if r.Some? {
        return;
      }
      ghost var (d0, dis0) := (deck.cards, discardPile);
      TallyProphecy(d0, dis0, shared, hands, labyrinths, doors, pick, order);
      var card := Foresee(deck, pick, order);
      discardPile := discardPile + [card];
      Retallied(Foretold(d0, pick, order), dis0 + [d0[pick]], shared, hands, labyrinths, doors);
    }

    /** Plays the card at index `i`; a labyrinth that now ends in three
        cards of one class discovers that class's door when the deck still
        holds one, and the deck is shuffled again. The three cards stay in
        the labyrinth. */
    method PlayPhase(i: int, js1: seq<nat>, js2: seq<nat>) returns (r: Option<Error>)
      requires Sound() && |hands[curPlayer]| == HandSize
      requires IsSwapPlan(js1, |deck.cards|) && IsSwapPlan(js2, |deck.cards|)
      modifies this, deck
      ensures Sound()
      ensures !(0 <= i < HandSize) ==> r == Some(InvalidIndex) && unchanged(this) && unchanged(deck)
      ensures 0 <= i < HandSize ==>
        Played(i, js1, js2) && phase == old(phase)
        && (r.None? <==> Placeable(old(labyrinths[curPlayer]), old(hands[curPlayer])[i]))
        && (r.Some? ==> r == Some(AdjacentSymbols) && unchanged(this) && unchanged(deck))
    {
      if i < 0 || i >= HandSize {
        return Some(InvalidIndex);
      }
      r := PlayCardAt(i);
      if r.Some? {
        return;
      }
      var (cls, ok) := CanDiscoverDoor(labyrinths[curPlayer]);
      if ok {
        var found := DiscoverDoor(cls, js1, js2);
      }
    }

    /** The current player discovers a door of class `cls`: it is taken
        out of the deck, which is shuffled, added to the player's doors,
        and the deck is shuffled again. Without such a door in the deck
        nothing changes. */
    method DiscoverDoor(cls: int, js1: seq<nat>, js2: seq<nat>) returns (found: bool)
      requires Sound()
      requires IsSwapPlan(js1, |deck.cards|) && IsSwapPlan(js2, |deck.cards|)
      modifies this, deck
      ensures Sound()
      ensures found <==> Door(cls) in old(deck.cards)
      ensures found ==> (doors == old(doors)[curPlayer := old(doors[curPlayer]) + [Door(cls)]]
        && deck.cards == Shuffled(Shuffled(RemoveAt(old(deck.cards),
                             FirstIndexOf(old(deck.cards), Door(cls))), js1), js2))
      ensures !found ==> doors == old(doors) && deck.cards == old(deck.cards)
      ensures hands == old(hands) && shared == old(shared) && labyrinths == old(labyrinths)
      ensures discardPile == old(discardPile) && phase == old(phase)
    {
      ghost var before := deck.cards;
      var door;
      door, found := deck.RemoveDoor(cls, js1);
      if found {
        ghost var (rest, ds0) := (deck.cards, doors);
        TallyDoor(before, rest, discardPile, shared, hands, labyrinths, ds0, curPlayer, door);
        AddDoor(door);
        deck.Shuffle(js2);
        TallyShuffle(rest, deck.cards, discardPile, shared, hands, labyrinths, doors);
        Retallied(deck.cards, discardPile, shared, hands, labyrinths, ds0[curPlayer := ds0[curPlayer] + [door]]);
      }
    }

    /** One turn. In Play, choice 1 discards and choice 2 plays, and either
        moves on to Draw even when the action was refused; choices 3 and 4
        only display, and nothing else happens. Draw does nothing. Shuffle
        shuffles the deck and returns to Play. */
    method Turn(choice: int, index: int, pick: int, order: seq<int>, js1: seq<nat>, js2: seq<nat>)
      requires Valid()
      requires IsSwapPlan(js1, |deck.cards|) && IsSwapPlan(js2, |deck.cards|)
      modifies this, deck
      ensures Valid()
      ensures phase == NextPhase(old(phase), choice)
      ensures old(phase) == Play && choice != DiscardChoice && choice != PlayChoice
        ==> unchanged(this) && unchanged(deck)
      ensures old(phase) == Draw ==> unchanged(this) && unchanged(deck)
      ensures old(phase) == Shuffle ==> (deck.cards == Shuffled(old(deck.cards), js1)
        && hands == old(hands) && shared == old(shared) && labyrinths == old(labyrinths)
        && doors == old(doors) && discardPile == old(discardPile))
      ensures (old(phase) == Play && (choice == DiscardChoice || choice == PlayChoice)
               && !(0 <= index < HandSize)) ==> PilesKept()
      ensures old(phase) == Play && choice == DiscardChoice && 0 <= index < HandSize
        ==> Discarded(index, pick, order)
      ensures old(phase) == Play && choice == PlayChoice && 0 <= index < HandSize
        ==> Played(index, js1, js2)
    {
      match phase
      case Play =>
        if choice == DiscardChoice || choice == PlayChoice {
          PlayTurn(choice, index, pick, order, js1, js2);
        }
      case Draw =>
      case Shuffle =>
        ShuffleDeck(js1);
        phase := Play;
        Retallied(deck.cards, discardPile, shared, hands, labyrinths, doors);
    }

    /** The Play phase of a turn: discarding or playing a card, after
        which the turn moves on to Draw whether or not the action was
        refused. */
    method PlayTurn(choice: int, index: int, pick: int, order: seq<int>, js1: seq<nat>, js2: seq<nat>)
      requires Valid() && phase == Play && (choice == DiscardChoice || choice == PlayChoice)
      requires IsSwapPlan(js1, |deck.cards|) && IsSwapPlan(js2, |deck.cards|)
      modifies this, deck
      ensures Valid() && phase == Draw
      ensures !(0 <= index < HandSize) ==> PilesKept()
      ensures choice == DiscardChoice && 0 <= index < HandSize ==> Discarded(index, pick, order)
      ensures choice == PlayChoice && 0 <= index < HandSize ==> Played(index, js1, js2)
    {
      if choice == DiscardChoice {
        var err := DiscardPhase(index, pick, order);
      } else {
        var err := PlayPhase(index, js1, js2);
      }
      phase := Draw;
      Retallied(deck.cards, discardPile, shared, hands, labyrinths, doors);
    }

    /** Shuffles the deck in the game. */
    method ShuffleDeck(js: seq<nat>)
      requires Sound() && IsSwapPlan(js, |deck.cards|)
      modifies deck
      ensures Sound()
      ensures deck.cards == Shuffled(old(deck.cards), js)
    {
      ghost var unshuffled := deck.cards;
      deck.Shuffle(js);
      TallyShuffle(unshuffled, deck.cards, discardPile, shared, hands, labyrinths, doors);
      Retallied(deck.cards, discardPile, shared, hands, labyrinths, doors);
    }
  }
}
