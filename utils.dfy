/**
 Starting classes and level arithmetic (src/optimizer/utils.ts): the table of the ten
 starting classes, the lookup `getStartingStats`, and `calculateLevel`, which maps a set of
 attributes back to the cheapest character level that can have them.
 */
module LevelUtils {
  import opened Wrappers
  import opened AttributeKeys

  datatype StartingClass =
    Vagabond | Warrior | Hero | Bandit | Astrologer | Prophet | Samurai | Prisoner | Confessor | Wretch

  /** `Object.values(StartingClass)`: the classes in declaration order. */
  const AllStartingClasses: seq<StartingClass> :=
    [Vagabond, Warrior, Hero, Bandit, Astrologer, Prophet, Samurai, Prisoner, Confessor, Wretch]

  datatype ClassStats = ClassStats(level: int, attributes: Attributes)

  /** `startingClassStats`: base level and base attributes (vig, min, end, str, dex, int, fai, arc). */
  function StartingClassStats(c: StartingClass): ClassStats {
    match c
    case Vagabond   => ClassStats(9,  Attributes(15, 10, 11, 14, 13,  9,  9,  7))
    case Warrior    => ClassStats(8,  Attributes(11, 12, 11, 10, 16, 10,  8,  9))
    case Hero       => ClassStats(7,  Attributes(14,  9, 12, 16,  9,  7,  8, 11))
    case Bandit     => ClassStats(5,  Attributes(10, 11, 10,  9, 13,  9,  8, 14))
    case Astrologer => ClassStats(6,  Attributes( 9, 15,  9,  8, 12, 16,  7,  9))
    case Prophet    => ClassStats(7,  Attributes(10, 14,  8, 11, 10,  7, 16, 10))
    case Samurai    => ClassStats(9,  Attributes(12, 11, 13, 12, 15,  9,  8,  8))
    case Prisoner   => ClassStats(9,  Attributes(11, 12, 11, 11, 14, 14,  6,  9))
    case Confessor  => ClassStats(10, Attributes(10, 13, 10, 12, 12,  9, 14,  9))
    case Wretch     => ClassStats(1,  Attributes(10, 10, 10, 10, 10, 10, 10, 10))
  }

  /**
   `getStartingStats`: the table entry of a class. Every entry obeys the game's level rule:
   a level-1 character has 80 points in all, and each further level is one more point.
   */
  function GetStartingStats(c: StartingClass): (r: ClassStats)
    ensures r == StartingClassStats(c)
    ensures r.level == r.attributes.Sum() - 79
    ensures 1 <= r.level <= 10
  {
    StartingClassStats(c)
  }

  /** The position of a class in `Object.values(StartingClass)`; every class has one. */
  function ClassIndex(c: StartingClass): (k: nat)
    ensures k < |AllStartingClasses| && AllStartingClasses[k] == c
  {
    match c
    case Vagabond => 0
    case Warrior => 1
    case Hero => 2
    case Bandit => 3
    case Astrologer => 4
    case Prophet => 5
    case Samurai => 6
    case Prisoner => 7
    case Confessor => 8
    case Wretch => 9
  }

  /** A class is possible for `x` when no attribute of `x` is below that class's base value. */
  predicate Qualifies(x: Attributes, c: StartingClass) {
    x.AtLeast(GetStartingStats(c).attributes)
  }

  /** Level reached from class `c`: its base level plus every point spent above its base. */
  function Cost(x: Attributes, c: StartingClass): int {
    GetStartingStats(c).level + (x.Sum() - GetStartingStats(c).attributes.Sum())
  }

  /** `Math.min(minLevel, v)` where `None` stands for `Infinity`. */
  function MinWith(m: Option<int>, v: int): (r: int)
    ensures r <= v
    ensures m.Some? ==> r <= m.value && (r == m.value || r == v)
    ensures m.None? ==> r == v
  {
    match m
    case None => v
    case Some(w) => if w < v then w else v
  }

  /**
   `minLevel` after the outer loop of `calculateLevel` has looked at the first `n` classes:
   `None` (still `Infinity`) exactly when none of them qualifies, otherwise the least cost
   among those that do.
   */
  function MinLevelUpTo(x: Attributes, n: nat): (r: Option<int>)
    requires n <= |AllStartingClasses|
    ensures r.None? <==> forall k :: 0 <= k < n ==> !Qualifies(x, AllStartingClasses[k])
    ensures r.Some? ==> exists k :: 0 <= k < n && Qualifies(x, AllStartingClasses[k]) && r.value == Cost(x, AllStartingClasses[k])
    ensures r.Some? ==> forall k :: 0 <= k < n && Qualifies(x, AllStartingClasses[k]) ==> r.value <= Cost(x, AllStartingClasses[k])
  {
    if n == 0 then None
    else
      var prev := MinLevelUpTo(x, n - 1);
      var c := AllStartingClasses[n - 1];
      if Qualifies(x, c) then Some(MinWith(prev, Cost(x, c))) else prev
  }

  /**
   What `calculateLevel(x)` returns: the least cost over the qualifying classes, and 1 when
   no class qualifies. By the table's level rule every qualifying class costs the same
   `Sum(x) - 79`.
   */
  function Level(x: Attributes): (r: int)
    ensures (forall c :: !Qualifies(x, c)) ==> r == 1
    ensures forall c :: Qualifies(x, c) ==> r <= Cost(x, c)
    ensures forall c :: Qualifies(x, c) ==> r == Cost(x, c) == x.Sum() - 79
  {
    EveryClassListed(x);
    match MinLevelUpTo(x, |AllStartingClasses|)
    case None => 1
    case Some(m) => m
  }

  lemma EveryClassListed(x: Attributes)
    ensures forall c :: Qualifies(x, c) ==> exists k :: 0 <= k < |AllStartingClasses| && AllStartingClasses[k] == c
  {
    forall c | Qualifies(x, c)
      ensures exists k :: 0 <= k < |AllStartingClasses| && AllStartingClasses[k] == c
    {
      var k := ClassIndex(c);
    }
  }

  /** `pointsSpent` after the inner loop of `calculateLevel` has looked at the first `n` keys. */
  function SpentUpTo(x: Attributes, base: Attributes, n: nat): int
    requires n <= |AllAttributes|
  {
    if n == 0 then 0
    else SpentUpTo(x, base, n - 1) + (x.Get(AllAttributes[n - 1]) - base.Get(AllAttributes[n - 1]))
  }

  lemma SpentTotal(x: Attributes, base: Attributes)
    ensures SpentUpTo(x, base, |AllAttributes|) == x.Sum() - base.Sum()
  {
    assert SpentUpTo(x, base, 1) == x.vigor - base.vigor;
    assert SpentUpTo(x, base, 2) == SpentUpTo(x, base, 1) + (x.mind - base.mind);
    assert SpentUpTo(x, base, 3) == SpentUpTo(x, base, 2) + (x.endurance - base.endurance);
    assert SpentUpTo(x, base, 4) == SpentUpTo(x, base, 3) + (x.strength - base.strength);
    assert SpentUpTo(x, base, 5) == SpentUpTo(x, base, 4) + (x.dexterity - base.dexterity);
    assert SpentUpTo(x, base, 6) == SpentUpTo(x, base, 5) + (x.intelligence - base.intelligence);
    assert SpentUpTo(x, base, 7) == SpentUpTo(x, base, 6) + (x.faith - base.faith);
    assert SpentUpTo(x, base, 8) == SpentUpTo(x, base, 7) + (x.arcane - base.arcane);
  }

  /**
   The inner loop of `calculateLevel` for one class: walk the keys, stop at the first one
   below the class base, and otherwise add up the points spent above the base.
   */
  method ClassPointsSpent(x: Attributes, c: StartingClass) returns (possibleClass: bool, pointsSpent: int)
    ensures possibleClass == Qualifies(x, c)
    ensures possibleClass ==> pointsSpent == x.Sum() - GetStartingStats(c).attributes.Sum()
  {
    var baseInfo := GetStartingStats(c);
    pointsSpent := 0;
    possibleClass := true;
    ghost var lower: Attribute := Vig;
    for i := 0 to |AllAttributes|
      invariant possibleClass
      invariant pointsSpent == SpentUpTo(x, baseInfo.attributes, i)
      invariant forall j :: 0 <= j < i ==> x.Get(AllAttributes[j]) >= baseInfo.attributes.Get(AllAttributes[j])
    {
      var spentOnAttr := x.Get(AllAttributes[i]) - baseInfo.attributes.Get(AllAttributes[i]);
      if spentOnAttr < 0 {
        lower := AllAttributes[i];
        possibleClass := false;
        break;
      }
      pointsSpent := pointsSpent + spentOnAttr;
    }
    if possibleClass {
      forall a ensures x.Get(a) >= baseInfo.attributes.Get(a) {
        var j := IndexOf(a);
      }
      SpentTotal(x, baseInfo.attributes);
    } else {
      assert x.Get(lower) < baseInfo.attributes.Get(lower);
    }
  }

  /** `calculateLevel`: the loop over the classes, with `minLevel` starting at `Infinity`. */
  method CalculateLevel(x: Attributes) returns (level: int)
    ensures level == Level(x)
  {
    var minLevel: Option<int> := None;
    for k := 0 to |AllStartingClasses|
      invariant minLevel == MinLevelUpTo(x, k)
    {
      var baseInfo := GetStartingStats(AllStartingClasses[k]);
      var possibleClass, pointsSpent := ClassPointsSpent(x, AllStartingClasses[k]);
      if possibleClass {
        minLevel := Some(MinWith(minLevel, baseInfo.level + pointsSpent));
      }
    }
    level := if minLevel.None? then 1 else minLevel.value;
  }

  /** Round trip: a class's own base attributes map back to that class's base level. */
  lemma LevelRoundTrip(c: StartingClass)
    ensures Level(GetStartingStats(c).attributes) == GetStartingStats(c).level
  {
    assert Qualifies(GetStartingStats(c).attributes, c);
  }

  /** Each point costs one level: once some class qualifies, one more point is one more level. */
  lemma PointCostsOneLevel(x: Attributes, a: Attribute, c: StartingClass)
    requires Qualifies(x, c)
    ensures Level(x.Inc(a)) == Level(x) + 1
  {
    assert Qualifies(x.Inc(a), c);
  }

  /** The level of any attributes that dominate a class's base is that base level plus the points above it. */
  lemma LevelAboveClassBase(x: Attributes, c: StartingClass)
    requires x.AtLeast(GetStartingStats(c).attributes)
    ensures Level(x) == GetStartingStats(c).level + (x.Sum() - GetStartingStats(c).attributes.Sum())
  {
    assert Qualifies(x, c);
  }
}
