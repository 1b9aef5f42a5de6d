/**
 * The character decorator example: a basic character wrapped in accessories,
 * each adding a fixed bonus to the stats and a line to the description.
 */
module Decorator {

  datatype Stats = Stats(attack: int, defense: int)

  datatype Accessory = Helmet | Shield | Sword | Ring

  /** A character is the basic one or an accessory wrapped around another character. */
  datatype Character = BasicCharacter | Decorated(accessory: Accessory, inner: Character)

  const BaseStats: Stats := Stats(25, 25)
  const BaseDescription: string := "Personaje básico"

  /** The stats an accessory adds: helmet +5 and shield +10 defense, sword +7 and ring +3 attack. */
  function Bonus(a: Accessory): (b: Stats)
    ensures (a == Helmet || a == Shield) <==> b.attack == 0
    ensures (a == Sword || a == Ring) <==> b.defense == 0
    ensures b.attack >= 0 && b.defense >= 0
  {
    match a
    case Helmet => Stats(0, 5)
    case Shield => Stats(0, 10)
    case Sword => Stats(7, 0)
    case Ring => Stats(3, 0)
  }

  /** The line an accessory appends to the description. */
  function Suffix(a: Accessory): string {
    match a
    case Helmet => "\n * con Casco"
    case Shield => "\n * con Escudo"
    case Sword => "\n * con Espada"
    case Ring => "\n * con Anillo Magico"
  }

  /** `getStats()`: the wrapped character's stats plus this accessory's bonus. */
  function GetStats(c: Character): (s: Stats)
    ensures s.attack >= BaseStats.attack && s.defense >= BaseStats.defense
  {
    match c
    case BasicCharacter => BaseStats
    case Decorated(a, inner) =>
      var stats := GetStats(inner);
      Stats(stats.attack + Bonus(a).attack, stats.defense + Bonus(a).defense)
  }

  /** `getDescription()`: the wrapped character's description followed by this accessory's line. */
  function GetDescription(c: Character): (d: string)
    ensures |d| >= |BaseDescription| && d[..|BaseDescription|] == BaseDescription
  {
    match c
    case BasicCharacter => BaseDescription
    case Decorated(a, inner) => GetDescription(inner) + Suffix(a)
  }

  /** The accessories of a chain, innermost first. */
  function Accessories(c: Character): (items: seq<Accessory>)
    ensures items == [] <==> c == BasicCharacter
  {
    match c
    case BasicCharacter => []
    case Decorated(a, inner) => Accessories(inner) + [a]
  }

  /** The chain built by wrapping the basic character in `items`, first item innermost. */
  function Wear(items: seq<Accessory>): Character
    decreases |items|
  {
    if items == [] then BasicCharacter
    else Decorated(items[|items| - 1], Wear(items[..|items| - 1]))
  }

  /** Wrapping and listing the accessories undo each other. */
  lemma {:induction false} WearAccessories(c: Character)
    ensures Wear(Accessories(c)) == c
  {
    match c
    case BasicCharacter =>
    case Decorated(a, inner) =>
      WearAccessories(inner);
      assert (Accessories(inner) + [a])[..|Accessories(inner)|] == Accessories(inner);
  }

  lemma {:induction false} AccessoriesWear(items: seq<Accessory>)
    ensures Accessories(Wear(items)) == items
    decreases |items|
  {
    if items != [] {
      AccessoriesWear(items[..|items| - 1]);
    }
  }

  /** How many times an accessory occurs in a chain. */
  function Count(items: seq<Accessory>, a: Accessory): nat {
    multiset(items)[a]
  }

  /**
   * A chain's stats are the base plus each bonus times the number of times it
   * is worn: only the multiset of accessories matters, not the order.
   */
  lemma {:induction false} StatsFormula(c: Character)
    ensures var items := Accessories(c);
            GetStats(c) == Stats(25 + 7 * Count(items, Sword) + 3 * Count(items, Ring),
                                 25 + 5 * Count(items, Helmet) + 10 * Count(items, Shield))
  {
    match c
    case BasicCharacter =>
    case Decorated(a, inner) =>
      StatsFormula(inner);
      var items := Accessories(inner);
      CountAppend(items, a, Helmet);
      CountAppend(items, a, Shield);
      CountAppend(items, a, Sword);
      CountAppend(items, a, Ring);
  }

  lemma CountAppend(items: seq<Accessory>, a: Accessory, x: Accessory)
    ensures Count(items + [a], x) == Count(items, x) + (if a == x then 1 else 0)
  {
    assert multiset(items + [a]) == multiset(items) + multiset{a};
  }

  /** Two chains wearing the same accessories, in whatever order, have the same stats. */
  lemma OrderDoesNotMatter(c: Character, d: Character)
    requires multiset(Accessories(c)) == multiset(Accessories(d))
    ensures GetStats(c) == GetStats(d)
  {
    StatsFormula(c);
    StatsFormula(d);
  }

  /** The description lists the basic character, then one line per accessory from the innermost out. */
  function Lines(items: seq<Accessory>): string
    decreases |items|
  {
    if items == [] then [] else Lines(items[..|items| - 1]) + Suffix(items[|items| - 1])
  }

  lemma {:induction false} DescriptionFormula(c: Character)
    ensures GetDescription(c) == BaseDescription + Lines(Accessories(c))
  {
    match c
    case BasicCharacter =>
    case Decorated(a, inner) =>
      DescriptionFormula(inner);
      var items := Accessories(inner) + [a];
      assert items[..|items| - 1] == Accessories(inner);
      Associative(BaseDescription, Lines(Accessories(inner)), Suffix(a));
  }

  /**
   * Regrouping a concatenation; stated over arbitrary sequences so that the
   * literal base description is not unfolded character by character.
   */
  lemma Associative<T>(a: seq<T>, b: seq<T>, c: seq<T>)
    ensures (a + b) + c == a + (b + c)
  {
  }

  /** The example's chain: helmet, shield, sword, then ring. */
  const ExampleCharacter: Character :=
    Decorated(Ring, Decorated(Sword, Decorated(Shield, Decorated(Helmet, BasicCharacter))))

  /** The example's chain ends at attack 35 and defense 40. */
  lemma ExampleStats()
    ensures GetStats(ExampleCharacter) == Stats(35, 40)
  {
  }

  /** The example's chain describes the basic character and then the four accessories in the order they were put on. */
  lemma ExampleDescription()
    ensures GetDescription(ExampleCharacter)
         == BaseDescription + Suffix(Helmet) + Suffix(Shield) + Suffix(Sword) + Suffix(Ring)
  {
  }
}
