/** The card model: three kinds of card, tagged with an integer class
    and, for labyrinth cards, an integer symbol. */
module Cards {

  // Card classes
  const Observatory := 0
  const Aquarium := 1
  const Garden := 2
  const Library := 3

  // Labyrinth card symbols
  const Sun := 0
  const Moon := 1
  const Key := 2

  // Dream card kinds
  const Nightmare := 0

  predicate IsClass(c: int) { Observatory <= c <= Library }
  predicate IsSymbol(s: int) { Sun <= s <= Key }
  predicate IsDreamKind(k: int) { k == Nightmare }

  datatype Card =
    | Door(cls: int)
    | Dream(kind: int)
    | Labyrinth(cls: int, symbol: int)

  /** Hands, labyrinths and the shared pool hold only labyrinth cards. */
  type LabyrinthCard = c: Card | c.Labyrinth? witness Labyrinth(Observatory, Sun)

  /** The doors a player has discovered. */
  type DoorCard = c: Card | c.Door? witness Door(Observatory)

  /** Every tag of the card lies in its enumeration. */
  predicate WellFormed(c: Card) {
    match c
    case Door(cls) => IsClass(cls)
    case Dream(kind) => IsDreamKind(kind)
    case Labyrinth(cls, symbol) => IsClass(cls) && IsSymbol(symbol)
  }

  function ClassName(cls: int): (r: string)
    requires IsClass(cls)
    ensures |r| > 0 && ' ' !in r
  {
    if cls == Observatory then "Observatory"
    else if cls == Aquarium then "Aquarium"
    else if cls == Garden then "Garden"
    else "Library"
  }

  function SymbolName(symbol: int): (r: string)
    requires IsSymbol(symbol)
    ensures |r| > 0 && ' ' !in r
  {
    if symbol == Sun then "Sun"
    else if symbol == Moon then "Moon"
    else "Key"
  }

  function DreamKindName(kind: int): (r: string)
    requires IsDreamKind(kind)
    ensures |r| > 0 && ' ' !in r
  {
    "Nightmare"
  }

  /** The display text of a door card. */
  function DoorString(cls: int): string
    requires IsClass(cls)
  {
    ClassName(cls) + " Door Card"
  }

  /** The display text of a dream card. */
  function DreamString(kind: int): string
    requires IsDreamKind(kind)
  {
    DreamKindName(kind) + " Dream Card"
  }

  /** The display text of a labyrinth card. */
  function LabyrinthString(cls: int, symbol: int): string
    requires IsClass(cls) && IsSymbol(symbol)
  {
    ClassName(cls) + " " + SymbolName(symbol) + " Labyrinth Card"
  }

  /** What printing a card shows: the `String` method of its kind. */
  function CardString(c: Card): string
    requires WellFormed(c)
  {
    match c
    case Door(cls) => DoorString(cls)
    case Dream(kind) => DreamString(kind)
    case Labyrinth(cls, symbol) => LabyrinthString(cls, symbol)
  }

  predicate EndsWith(s: string, suffix: string) {
    |suffix| <= |s| && s[|s| - |suffix|..] == suffix
  }

  /** A display names the card's kind in its last words and, for door and
      labyrinth cards, starts with the class name. */
  lemma CardStringNamesKind(c: Card)
    requires WellFormed(c)
    ensures c.Door? <==> EndsWith(CardString(c), " Door Card")
    ensures c.Dream? <==> EndsWith(CardString(c), " Dream Card")
    ensures c.Labyrinth? <==> EndsWith(CardString(c), " Labyrinth Card")
    ensures !c.Dream? ==> CardString(c)[..|ClassName(c.cls)|] == ClassName(c.cls)
  {
    var s := CardString(c);
    // The sixth letter from the end is 'r' in "Door", 'm' in "Dream" and
    // 'h' in "Labyrinth", so no display ends with another kind's words.
    assert s[|s| - 6] == (if c.Door? then 'r' else if c.Dream? then 'm' else 'h');
    SixthFromEnd(s, " Door Card");
    SixthFromEnd(s, " Dream Card");
    SixthFromEnd(s, " Labyrinth Card");
  }

  lemma SixthFromEnd(s: string, suffix: string)
    requires 6 <= |suffix|
    ensures EndsWith(s, suffix) ==> s[|s| - 6] == suffix[|suffix| - 6]
  {
    if EndsWith(s, suffix) {
      assert s[|s| - |suffix|..][|suffix| - 6] == s[|s| - 6];
    }
  }

  /** The four class names are pairwise distinct. */
  lemma ClassNameInjective(a: int, b: int)
    requires IsClass(a) && IsClass(b) && ClassName(a) == ClassName(b)
    ensures a == b
  {
    assert ClassName(a)[0] == ClassName(b)[0];
  }

  /** The three symbol names are pairwise distinct. */
  lemma SymbolNameInjective(a: int, b: int)
    requires IsSymbol(a) && IsSymbol(b) && SymbolName(a) == SymbolName(b)
    ensures a == b
  {
    assert SymbolName(a)[0] == SymbolName(b)[0];
  }

  /** The first letter of a display: the class initial, or N for a
      nightmare. */
  lemma DisplayInitial(c: Card)
    requires WellFormed(c)
    ensures CardString(c)[0] == if c.Dream? then 'N' else ClassName(c.cls)[0]
  {
  }

  /** The first letter of the word after the class name: D for a door,
      the symbol's initial for a labyrinth card. */
  lemma DisplaySecondWord(c: Card)
    requires WellFormed(c) && !c.Dream?
    ensures |ClassName(c.cls)| + 1 < |CardString(c)|
    ensures CardString(c)[|ClassName(c.cls)| + 1] == if c.Door? then 'D' else SymbolName(c.symbol)[0]
  {
  }

  /** Displays identify cards: two well-formed cards that print the same
      are the same card. */
  lemma CardStringInjective(a: Card, b: Card)
    requires WellFormed(a) && WellFormed(b) && CardString(a) == CardString(b)
    ensures a == b
  {
    // The first letter tells a dream card (N) from the others and fixes the class.
    DisplayInitial(a);
    DisplayInitial(b);
    if a.Dream? || b.Dream? {
      assert a.Dream? && b.Dream?;
    } else {
      ClassNameInjective(a.cls, b.cls);
      // The word after the class name is "Door" or the symbol name.
      DisplaySecondWord(a);
      DisplaySecondWord(b);
      if a.Labyrinth? && b.Labyrinth? {
        SymbolNameInjective(a.symbol, b.symbol);
      }
    }
  }
}
