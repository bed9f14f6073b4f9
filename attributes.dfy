/**
 The eight character attributes (src/calculator/attributes.ts): the attribute keys in
 their declaration order, and the total record from each key to a number.
 */
module AttributeKeys {

  /** One attribute key: vig, min, end, str, dex, int, fai, arc. */
  datatype Attribute = Vig | Min | End | Str | Dex | Int | Fai | Arc

  /** `allAttributes`: the fixed iteration order of every loop over attributes. */
  const AllAttributes: seq<Attribute> := [Vig, Min, End, Str, Dex, Int, Fai, Arc]

  /** A partial record (`Partial<Attributes>`): absent keys read as 0 (`?? 0`). */
  type PartialAttributes = map<Attribute, int>

  function PartialGet(m: PartialAttributes, a: Attribute): (r: int)
    ensures a in m ==> r == m[a]
    ensures a !in m ==> r == 0
  {
    if a in m then m[a] else 0
  }

  /** `Attributes = Record<Attribute, number>`: every key has a value. */
  datatype Attributes = Attributes(
    vigor: int, mind: int, endurance: int, strength: int,
    dexterity: int, intelligence: int, faith: int, arcane: int)
  {
    /** `attributes[a]` */
    function Get(a: Attribute): int {
      match a
      case Vig => vigor
      case Min => mind
      case End => endurance
      case Str => strength
      case Dex => dexterity
      case Int => intelligence
      case Fai => faith
      case Arc => arcane
    }

    /** `{ ...attributes, [a]: v }`: a copy with one key replaced. */
    function With(a: Attribute, v: int): (r: Attributes)
      ensures r.Get(a) == v
      ensures forall b :: b != a ==> r.Get(b) == Get(b)
      ensures r.Sum() == Sum() - Get(a) + v
    {
      match a
      case Vig => this.(vigor := v)
      case Min => this.(mind := v)
      case End => this.(endurance := v)
      case Str => this.(strength := v)
      case Dex => this.(dexterity := v)
      case Int => this.(intelligence := v)
      case Fai => this.(faith := v)
      case Arc => this.(arcane := v)
    }

    /** `{ ...attributes, [a]: attributes[a] + 1 }`: one more point in `a`, nothing else changed. */
    function Inc(a: Attribute): (r: Attributes)
      ensures r.Get(a) == Get(a) + 1
      ensures forall b :: b != a ==> r.Get(b) == Get(b)
      ensures r.Sum() == Sum() + 1
    {
      With(a, Get(a) + 1)
    }

    /** Total of the eight values. */
    function Sum(): int {
      vigor + mind + endurance + strength + dexterity + intelligence + faith + arcane
    }

    /** Componentwise `>=`. */
    predicate AtLeast(other: Attributes) {
      forall a :: Get(a) >= other.Get(a)
    }
  }

  /** The position of a key in `allAttributes`; every key has exactly one. */
  function IndexOf(a: Attribute): (i: nat)
    ensures i < |AllAttributes| && AllAttributes[i] == a
    ensures forall j :: 0 <= j < |AllAttributes| && AllAttributes[j] == a ==> j == i
  {
    match a
    case Vig => 0
    case Min => 1
    case End => 2
    case Str => 3
    case Dex => 4
    case Int => 5
    case Fai => 6
    case Arc => 7
  }

  /** There are exactly eight keys, pairwise distinct, and every key is listed. */
  lemma AllAttributesEnumerates()
    ensures |AllAttributes| == 8
    ensures forall i, j :: 0 <= i < j < |AllAttributes| ==> AllAttributes[i] != AllAttributes[j]
    ensures forall a :: a in AllAttributes
  {
    forall a ensures a in AllAttributes {
      var i := IndexOf(a);
    }
  }

  /** Two records that agree on every key are equal. */
  lemma Extensionality(x: Attributes, y: Attributes)
    requires forall a :: x.Get(a) == y.Get(a)
    ensures x == y
  {
    assert x.Get(Vig) == y.Get(Vig) && x.Get(Min) == y.Get(Min);
    assert x.Get(End) == y.Get(End) && x.Get(Str) == y.Get(Str);
    assert x.Get(Dex) == y.Get(Dex) && x.Get(Int) == y.Get(Int);
    assert x.Get(Fai) == y.Get(Fai) && x.Get(Arc) == y.Get(Arc);
  }
}
