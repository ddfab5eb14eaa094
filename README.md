# Onirim rules engine in Dafny

This project models the rules engine of a small Go implementation of the card game Onirim, and proves properties of that model. The game is played by one or two players.

- **Cards** are door, dream and labyrinth cards. They carry an integer class (Observatory, Aquarium, Garden, Library) and, for labyrinth cards, an integer symbol (Sun, Moon, Key).
- **The deck** is an ordered pile whose front is the top. It starts as the 76-card basic deck: 8 doors, 58 labyrinth cards and 10 nightmares. It supports a Fisher–Yates shuffle, a draw from the top, the deal of a five-card hand, and the removal of the first door of a class.
- **Each player** has a hand, a labyrinth and the doors discovered so far. A shared pool of labyrinth cards sits beside them.
  - A card index below the hand's length names a hand card. Any larger index names a shared card at `index - 3`.
  - A card may join the labyrinth unless the labyrinth ends in the same symbol.
  - Three cards of one class at the end of the labyrinth discover a door of that class.
- **A turn** is a small state machine over the phases Play, Draw and Shuffle.
  - In Play the player discards a card or plays one.
  - Discarding a key starts a prophecy. The top cards of the deck are shown, at most five of them. One of them is set aside on the discard pile, and the rest of the window is put back in a chosen order.
  - Playing a card may discover a door. The door is then taken from the deck, which is shuffled twice.

Modules follow the source files:

- `Errors` (errors.dfy) holds the failure values.
- `Cards` (card.dfy) covers card.go.
- `CardSlices` (card_slice.dfy) covers cardSlice.go.
- `Decks` (deck.dfy) covers deck.go.
- `Players` (player.dfy) covers player.go.
- `Games` (game.dfy) covers game.go.

The deck is modelled in two ways:

- a class `Decks.Deck`, whose `cards` sequence the methods reassign in place;
- specification functions over sequences (`Shuffled`, `Labyrinths`, `RemoveAt`, `Foretold`).

`Games.Game` owns every pile. The source's `Player` struct only holds pointers into the game, so the player operations that change piles are `Game` methods acting on the current player. The player operations that only read are functions in `Players` over explicit piles.

Inputs become parameters:

- The user's menu choices, indices and prophecy order are parameters.
- Every `rand.Intn(i + 1)` becomes a "swap plan" `js` with `js[i] <= i`. A plan is any sequence of choices the random source could have made.

`Games.Game.Sound` is the game's invariant, and every action preserves it. It says three things:

- no labyrinth shows the same symbol twice in a row;
- in a one-player game the second player's piles stay empty;
- the multiset of all cards in all piles equals the cards dealt at the start. This is the ghost `total`, which is the basic deck's 76 cards.

Some points where the model makes a choice:

- **Hand size and shared offset.** The offset to the shared pool is hard-coded as 3 (player.go:59, player.go:137), but a hand holds 5 cards. The model keeps the 3 as `Players.SharedOffset`. `Players.KeySearchMisaddresses` shows the consequence for the key search.
- **The source's defects.** Several operations do not do what their comments and names say. The model follows the intended behaviour, and "## Findings" records each difference with a member that models the code as written.
- **Unreachable and terminal phases.** Draw has an empty body, so a game never leaves Draw. No source line sets the phase to Shuffle, so Shuffle is reachable only from an initial state. `Games.DrawIsFinal` and `Games.PlayLeadsToDraw` prove both facts for the phase function.

## Model

| member | source | states |
|---|---|---|
| Cards.ClassName | card.go:45-56 | each of the four classes has a non-empty, single-word name |
| Cards.SymbolName | card.go:90-99 | each of the three symbols has a non-empty, single-word name |
| Cards.ClassNameInjective | card.go:77-88 | distinct classes have distinct names |
| Cards.SymbolNameInjective | card.go:90-99 | distinct symbols have distinct names |
| Cards.DreamKindName | card.go:64-69 | the one dream kind, Nightmare, has a non-empty, single-word name |
| Cards.DoorString | card.go:42-59 | a door's display: its class name followed by " Door Card" |
| Cards.DreamString | card.go:61-72 | a dream's display: its kind's name followed by " Dream Card" |
| Cards.LabyrinthString | card.go:74-101 | a labyrinth card's display: class name, a space, symbol name, then " Labyrinth Card" |
| Cards.CardString | card.go:42-101 | a card's display is the `String` of its kind; its meaning is proved in `Cards.CardStringNamesKind` and `Cards.CardStringInjective` |
| Cards.CardStringNamesKind | card.go:42-101 | a display ends in " Door Card", " Dream Card" or " Labyrinth Card" exactly when the card is of that kind; door and labyrinth displays begin with the class name |
| Cards.CardStringInjective | card.go:42-101 | two well-formed cards with the same display are the same card |
| CardSlices.RemoveAt | cardSlice.go:7 | the slice loses one element; elements before `i` keep their places and later ones move down by one |
| CardSlices.RemoveAtMultiset | cardSlice.go:5-9 | the removed element plus the remaining slice is the original multiset |
| CardSlices.CardSlice.Remove | cardSlice.go:5-9 | returns the element at `i` and leaves the slice with it spliced out |
| Decks.SwapPermutes | deck.go:15 | one swap step keeps the multiset of cards |
| Decks.ShuffledFrom | deck.go:12-16 | the deck after steps `i` to the end of the shuffle, each swapping position `i` with `js[i]`; the length is kept |
| Decks.Shuffled | deck.go:12-16 | the deck after the whole Fisher–Yates shuffle the plan drives, of the same length; `Decks.ShufflePermutes` shows it is a permutation |
| Decks.ShufflePermutes | deck.go:12-16 | a whole shuffle keeps the multiset of cards, for every swap plan |
| Decks.Deck.Shuffle | deck.go:12-16 | the in-place loop produces the shuffle the plan defines, keeping length and multiset |
| Decks.Deck.Draw | deck.go:21-37 | an empty deck is an error and stays empty; otherwise the top card is returned and exactly the rest remains, in order |
| Decks.DrawAsWritten | deck.go:21-37 | the draw as written: the error on an empty deck, a panic on a one-card deck, the top card and the rest otherwise |
| Decks.LabyrinthsPermutation | deck.go:60-61 | rearranging a pile rearranges its labyrinth cards, so a shuffle keeps how many there are |
| Decks.DealingStep | deck.go:45-57 | each drawn card goes to the hand when it is a labyrinth card and to the put-back pile otherwise, and no card is lost |
| Decks.DealingDone | deck.go:58-61 | a full hand is the deck's first five labyrinth cards, and the hand plus what is left and put back is the original deck |
| Decks.Deck.DrawHand | deck.go:39-64 | the hand is exactly the first five labyrinth cards; hand plus new deck is the old multiset; the deck loses five cards, all labyrinth cards; with fewer than five labyrinth cards it is an error and the deck is unchanged |
| Decks.DealPassAsWritten | deck.go:40-57 | the loop body as written sorts only the card it inspects, and panics on a failed draw |
| Decks.DealAsWrittenPanics | deck.go:40-57 | with the shadowed, never-assigned `card`, the first pass panics on every deck |
| Decks.FirstIndexOf | deck.go:71-72 | the index found holds the card and no earlier position does |
| Decks.Deck.RemoveDoor | deck.go:66-80 | succeeds exactly when a door of the class is present; then it removes the first such door, shuffles, and the deck plus the door is the old multiset; otherwise it changes nothing and returns the zero door |
| Decks.BasicDeckSize | deck.go:82-130 | the basic deck has 76 cards, 58 of them labyrinth cards |
| Decks.BasicDeck | deck.go:88-130 | the starting deck in build order: the doors twice, the suns six times plus six extra, the moons four times, the keys three times, then ten nightmares |
| Decks.BasicCount | deck.go:82-87 | the counts the source's comment gives, as an independent table: 2 per door; 9, 8, 7 and 6 suns, 4 moons and 3 keys per class; 10 nightmares; 0 for anything else |
| Decks.BasicDeckCounts | deck.go:82-127 | the counts are 2 doors per class; 9/8/7/6 suns, 4 moons and 3 keys per class; 10 nightmares; nothing else |
| Decks.NewBasicDeck | deck.go:88-130 | the counted append loops build exactly the basic deck, with 76 cards and the stated counts |
| Players.CardAt | player.go:53-63 | an index below the hand's length takes the hand card there; otherwise the shared card at `i - 3` |
| Players.AfterRemoval | player.go:30-41 | the card leaves the pile it came from and the other pile is untouched |
| Players.RemovalTakesCard | player.go:30-41 | removal takes exactly the addressed card out of the two piles |
| Players.RemovalAsWrittenKeepsCard | player.go:37-41 | the removal as written keeps the card and adds a second copy, so the piles grow by one |
| Players.AfterRemovalAsWritten | player.go:37-41 | models the code as written: the addressed card is appended to its own pile again instead of being taken out |
| Players.LabyrinthEnd | player.go:90-96 | false exactly for an empty labyrinth; otherwise the last card |
| Players.Placeable | player.go:73-77 | the test of `playCardAt`: a card may be played unless the labyrinth has an end with the same symbol |
| Players.PlacingKeepsSymbolsApart | player.go:70-80 | appending keeps neighbouring symbols distinct exactly when the card is placeable; an empty labyrinth accepts any card |
| Players.PlayedCardIsEnd | player.go:80 | the played card becomes the labyrinth's end |
| Players.CanDiscoverDoor | player.go:103-115 | (c, true) exactly when there are at least three cards and the last three have class c; otherwise (-1, false) |
| Players.DiscoveryByLastThree | player.go:103-115 | with three or more cards, any prefix leaves the answer unchanged, so discovery depends only on the last three cards; a class the last three share is found |
| Players.FirstKey | player.go:129-139 | the first position of a key of a class in a pile, or -1 exactly when there is none |
| Players.KeySearch | player.go:128-142 | a key is found exactly when the hand or the shared pool holds one; otherwise (-1, false) |
| Players.HasKey | player.go:128-142 | the two search loops return the first hand index, else 3 plus the first shared index, else (-1, false) |
| Players.KeySearchAddresses | player.go:128-142 | the index found addresses the key when the key is in the hand, or in the shared pool with a hand of at most three cards |
| Players.KeySearchMisaddresses | player.go:137 | with a five-card hand and the key only in the shared pool, the index found names a hand card |
| Games.NextPhase | game.go:98-131 | in Play, discard or play leads to Draw and any other choice stays in Play; Draw stays; Shuffle returns to Play |
| Games.DrawIsFinal | game.go:125 | no sequence of turns leaves Draw |
| Games.PlayLeadsToDraw | game.go:109-124 | from Play, Draw is reached exactly when some turn discards or plays, and Shuffle never |
| Games.ProphecyBound | game.go:186-189 | the window is five cards, or the whole deck when it is shorter |
| Games.ProphecyCheck | game.go:198-236 | the choices are accepted exactly when the pick lies in the window and, with three or more cards shown, the order is a permutation of the rest |
| Games.Foretold | game.go:205-236 | the deck after an accepted prophecy: the picked card spliced out, then the window's remaining cards reordered when three or more were shown; one card shorter than before |
| Games.ReorderPlaces | game.go:217-234 | after a reorder, top position k holds the card `order[k]` named before any write, and every card below keeps its place |
| Games.ReorderPermutes | game.go:212-236 | reordering by a permutation keeps the deck's multiset |
| Games.ReorderDuplicates | game.go:217-218 | an unchecked order 0 0 duplicates a card and loses another |
| Games.Reorder | game.go:212-236 | models the reorder as written, with unchecked indices: the top positions take the cards the order names, read before any write, and the rest stays; the length is kept |
| Games.ReorderByWrites | game.go:217-234 | the tuple assignments of two, three or four deck slots equal the reorder of the window |
| Games.ForetoldConserves | game.go:205 | an accepted prophecy removes exactly the picked card from the deck |
| Games.ForetoldPlaces | game.go:205-236 | an accepted prophecy puts the named cards on top and shifts every card below the window up by one |
| Games.ProphecyAsWrittenLosesCard | game.go:205 | as written, the picked card ends up in neither the deck nor the discard pile |
| Games.ProphecyDiscardAsWritten | game.go:205 | models the code as written: the picked card is spliced out of the deck and the discard pile is left as it was |
| Games.ReorderGuardNeverHolds | game.go:216 | as written, the guard on the reorder is false for every input |
| Games.ReorderGuardAsWritten | game.go:216 | models the guard as written: apply the order only when the scan failed and also filled all values, where the scan fails exactly when it fills fewer |
| Games.Foresee | game.go:183-237 | the in-place splice and slot writes return the picked card and leave the deck as the accepted prophecy defines |
| Games.TallyDeal | game.go:53-76 | the dealt deck and the hands hold exactly the cards of the basic deck |
| Games.TallyPlay | player.go:79-80 | playing moves one card from hand or pool into the labyrinth, keeping all cards |
| Games.TallyDiscard | game.go:173-174 | discarding moves one hand card to the discard pile, keeping all cards |
| Games.TallyProphecy | game.go:205 | a prophecy moves the picked card to the discard pile, keeping all cards |
| Games.TallyDoor | game.go:261-265 | discovering moves a door from the deck to the player's doors, keeping all cards |
| Games.Deal | game.go:53-76 | the deal gives a hand of five to each player and leaves 76 minus five per player in the deck, with every card of the basic deck accounted for |
| Games.Game.constructor | game.go:51-83 | a new game is in Play with player one, empty piles apart from the hands, full hands and the basic deck's cards in all |
| Games.Game.NewGame | game.go:46-84 | a player count other than 1 or 2 is rejected; otherwise a sound game in Play with player one |
| Games.Game.RemoveCard | player.go:37-41 | takes the addressed card out of the current player's hand or the shared pool and changes nothing else |
| Games.Game.AddDoor | player.go:118-120 | appends one door to the current player's doors and leaves the rest unchanged |
| Games.Game.PlayCardAt | player.go:70-83 | a card equal in symbol to the labyrinth's end is refused with nothing changed; otherwise it leaves its pile and becomes the labyrinth's end |
| Games.Game.Place | player.go:79-80 | the card leaves its pile, joins the end of the labyrinth, and the game stays sound |
| Games.Game.DiscardPhase | game.go:163-181 | an index outside [0, 5) is refused with nothing changed. Otherwise the hand card goes to the discard pile and the other piles stay. A key then runs the prophecy: accepted choices discard the picked card and give the foretold deck; refused choices leave the deck as it was and return the refusal |
| Games.Game.Prophecy | game.go:183-238 | choices that do not fit the window are refused with nothing changed; otherwise the picked card is discarded and the deck becomes the accepted prophecy's deck |
| Games.Game.PlayPhase | game.go:245-271 | an index outside [0, 5), or a card with the labyrinth end's symbol, returns its error with nothing changed. Otherwise the card moves to the labyrinth. When the labyrinth then ends in three of a class whose door the deck holds, the door moves to the player's doors and the deck becomes the rest shuffled twice; otherwise doors and deck stay |
| Games.Game.DiscoverDoor | game.go:260-268 | a door of the class is found exactly when the deck holds one; it then leaves the deck for the player's doors, around the two shuffles; otherwise nothing changes |
| Games.Game.Turn | game.go:98-132 | the phase moves as the phase function says. In Play, a discard or play with an index outside [0, 5) leaves every pile and the deck as they were; otherwise the new piles and deck are those of the discard (with its prophecy) or the play (with its discovery). Choices 3 and 4, and the Draw phase, change nothing; Shuffle only shuffles the deck; the game stays sound |
| Games.Game.PlayTurn | game.go:109-119 | discard or play, then Draw, whether or not the action was refused: an index outside [0, 5) keeps every pile and the deck; otherwise the piles and deck are given in full, as for the discard or the play |
| Games.Game.ShuffleDeck | game.go:126-127 | shuffles the deck and keeps the game sound |

## Left out

- Input and output are not modelled. This covers every `fmt.Print*` and `fmt.Scan*` call, `printHands`, `printLabyrinths`, `printPersonalResources`, `printLabyrinth` and the "Deck shuffled" message. The values read become parameters.
- `math/rand` is not modelled. A swap plan stands for any sequence of its results, and the distribution is not modelled.
- main.go is not part of this model. It only seeds the random source and loops over turns.
- The `limbo` pile, the `WIN`/`LOSS` constants, the `players` slice and the `Player` pointer struct are not modelled: none of them has behaviour of its own.
- The aliasing that `playPhase`'s value receiver (game.go:245) causes is not modelled. The model gives the deck as the discovery evidently intends: the door leaves it, and the rest is shuffled twice.
  - The receiver `g` is a copy of the game, and `g.deck` is a slice header that shares its backing array with the caller's deck.
  - Changes to the hand, labyrinth and doors reach the caller's game directly, through the `Player` pointers (game.go:66-67).
  - `removeDoor`'s in-place splice (deck.go:73) and both shuffles (deck.go:74, game.go:266) write into the shared array. The caller's deck keeps its old length.
  - After a discovery, the caller's deck therefore holds the shuffled remaining cards, followed by a stale second copy of its former last card.
  - If the door was the last card, it stays in the caller's deck and is also added to the player's doors.
  - Either way one card is duplicated. `Games.Game.Sound`'s card count would not survive this.
- `drawHand` appends `putBack` as one element (deck.go:60). Because `Card` is `interface{}` in the source, the deck then holds the whole put-back slice as a single entry. The model's `Card` datatype has no slice-valued card, so the model puts the put-back cards back one by one.
- Decks.Deck.DrawHand: the source panics when the deck runs out before five labyrinth cards are found (deck.go:46-47). The model reports `InsufficientLabyrinthCards` and leaves the deck as it was.
- Games.Game.Prophecy: the source re-reads the pick until it falls in the window (game.go:198-203), and never ends on an empty deck. The model reports an out-of-window pick as `InvalidIndex` and changes nothing.
- Games.Game.Prophecy: the source reads the new order with no check. The model accepts only a permutation of the remaining window's positions and otherwise reports `InvalidPermutation`; see "## Findings".
- Players.KeySearchAddresses: this is weaker than the promise that any index found addresses the key. With the fixed offset of 3 and a five-card hand, a key in the shared pool is reported at a hand position (Players.KeySearchMisaddresses), so the property is stated only where it holds.
- The current player never changes: no source line advances `curPlayerIndex`.
- The `default: panic` branch of `turn` is not modelled, because the phase datatype has only three values.
- Card strings of out-of-range classes or symbols panic in the source. They are excluded by precondition.
- Go's fixed-width `int` is not modelled, because all indices and counts here are small.
- The slice capacities given to `make` are not modelled. `MakeLabyrinth` and `MakeDoors` give empty sequences.

## Findings

| source | as written | input that shows it | evidently intended | confidence | as-written member | corrected member |
|---|---|---|---|---|---|---|
| player.go:39 | `removeCard` appends the card to its pile again | a hand of five and index 0: the hand becomes six cards and the card is still in it | the card is taken out of its pile, as the comment at player.go:30-36 says | high, not executed | Players.AfterRemovalAsWritten, Players.RemovalAsWrittenKeepsCard | Players.AfterRemoval, Players.RemovalTakesCard |
| deck.go:30-34 | on a one-card deck `draw` sets the deck to nil and then slices it from position 1 | a deck holding one card: the slice is out of range and the program panics | the card is returned and the deck is left empty | high, not executed | Decks.DrawAsWritten | Decks.Deck.Draw |
| deck.go:46-56 | the `if` statement declares a second `card`, so the type switch inspects the outer `card`, which is never assigned; the default branch's assertion to a labyrinth card then panics. The standard Go compiler rejects the inner `card` as declared and not used, so deck.go as given does not build | the 76-card basic deck: the first pass panics and no hand is dealt | the drawn card goes to the hand or the put-back pile | high, not executed | Decks.DealPassAsWritten, Decks.DealAsWrittenPanics | Decks.Deck.DrawHand, Decks.DealingStep |
| game.go:205 | the picked card is spliced out of the deck and dropped | any accepted pick: the card is in neither the deck nor the discard pile | the card is discarded, as the prompt "Discard One" at game.go:193 says | medium, not executed | Games.ProphecyDiscardAsWritten, Games.ProphecyAsWrittenLosesCard | Games.Game.Prophecy, Games.TallyProphecy |
| game.go:216 | the reorder runs only when `err != nil && num == N`, which never holds because the scan errs exactly when it reads fewer than N values; the loops at game.go:214-236 have no exit | any deck of three or more cards: the order is never applied and the prophecy never returns | the order is applied once when all N values were read | high, not executed | Games.ReorderGuardAsWritten, Games.ReorderGuardNeverHolds | Games.Foresee |
| game.go:217-218 | the new order's indices are used without a check | a three-card deck, pick 2, order 0 0: the top card is copied over the second | the order is a rearrangement of the remaining window's positions | medium, not executed | Games.Reorder, Games.ReorderDuplicates | Games.ProphecyCheck, Games.ReorderPermutes |
