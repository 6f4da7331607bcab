/**
 * The decisions the Compose card `McLarenCarCard` makes from a car: the card
 * height of the staggered grid, whether the FEATURED badge shows, and the
 * texts it displays. Layout, colours, the gradient and image loading are the
 * UI toolkit's.
 */
module ComposeCard {
  import opened KotlinInt
  import opened DataCatalog
  import opened Options

  /** The three card heights, in dp. */
  const TallDp: int := 280
  const ShortDp: int := 220
  const MediumDp: int := 250

  /** `when (car.id % 3) { 0 -> 280.dp; 1 -> 220.dp; else -> 250.dp }`, with Kotlin's `%`. */
  function CardHeight(id: int): (dp: int)
    ensures dp == TallDp || dp == ShortDp || dp == MediumDp
  {
    match Rem(id, 3)
    case 0 => TallDp
    case 1 => ShortDp
    case _ => MediumDp
  }

  /** What the card shows for one car. */
  datatype CardView = CardView(
    heightDp: int,
    featuredBadge: bool,
    seriesText: string,
    nameText: string,
    specsText: string,
    priceText: string,
    yearText: string
  )

  /** The performance line `"${horsepower} HP • ${acceleration} • ${topSpeed} km/h"`. */
  function SpecsLabel(car: McLarenCar): (s: string)
    ensures ToString(car.horsepower) + " HP • " <= s
    ensures var tail := " " + ToString(car.topSpeed) + " km/h";
      |tail| <= |s| && s[|s| - |tail|..] == tail
  {
    ToString(car.horsepower) + " HP • " + car.acceleration + " • " + ToString(car.topSpeed) + " km/h"
  }

  /** `McLarenCarCard(car)`: the card's height, badge and texts. */
  function Card(car: McLarenCar): (v: CardView)
    ensures v.featuredBadge <==> car.isFeatured
    ensures v.heightDp == CardHeight(car.id)
    ensures ParseInt(v.yearText) == Some(car.year)
  {
    CardView(CardHeight(car.id), car.isFeatured, car.series, car.name, SpecsLabel(car),
      car.price, ToString(car.year))
  }

  /** Remainder 0 gives the tall card, 1 the short one, any other remainder (2, -1, -2) the medium one. */
  lemma CardHeightByRemainder(id: int)
    ensures Rem(id, 3) == 0 ==> CardHeight(id) == TallDp
    ensures Rem(id, 3) == 1 ==> CardHeight(id) == ShortDp
    ensures Rem(id, 3) != 0 && Rem(id, 3) != 1 ==> CardHeight(id) == MediumDp
  {
  }

  /** Negative ids that 3 does not divide all get the medium card. */
  lemma NegativeIdsGetMediumCard(id: int)
    requires id < 0 && id % 3 != 0
    ensures CardHeight(id) == MediumDp
  {
    assert Rem(id, 3) == -((-id) % 3);
  }

  /** From id 0 upward the heights repeat with period 3. */
  lemma {:induction false} CardHeightPeriodic(id: int)
    requires id >= 0
    ensures CardHeight(id + 3) == CardHeight(id)
  {
    assert Rem(id + 3, 3) == (id + 3) % 3 == id % 3 == Rem(id, 3);
  }

  /** The period breaks across zero: -2 gets the medium card but 1 the short one. */
  lemma CardHeightNotPeriodicAcrossZero()
    ensures CardHeight(-2) == MediumDp && CardHeight(-2 + 3) == ShortDp
  {
    assert Rem(-2, 3) == -2;
  }

  /** In every run of three ids from a multiple of 3 up, the card is tall, then short, then medium. */
  lemma CardHeightCycle(k: nat)
    ensures CardHeight(3 * k) == TallDp
    ensures CardHeight(3 * k + 1) == ShortDp
    ensures CardHeight(3 * k + 2) == MediumDp
  {
    assert Rem(3 * k, 3) == 0;
    assert Rem(3 * k + 1, 3) == 1;
    assert Rem(3 * k + 2, 3) == 2;
  }

  /** `a` has no space, `x` starts with one: `a + x` determines both. */
  lemma SplitAtFirstSpace(a1: string, x1: string, a2: string, x2: string)
    requires ' ' !in a1 && ' ' !in a2
    requires |x1| > 0 && x1[0] == ' ' && |x2| > 0 && x2[0] == ' '
    requires a1 + x1 == a2 + x2
    ensures a1 == a2 && x1 == x2
  {
    assert a1 == (a1 + x1)[..|a1|];
    assert a2 == (a2 + x2)[..|a2|];
    assert x1 == (a1 + x1)[|a1|..];
    assert x2 == (a2 + x2)[|a2|..];
  }

  /** `b` has no space: `p + " " + b` determines both. */
  lemma SplitAtLastSpace(p1: string, b1: string, p2: string, b2: string)
    requires ' ' !in b1 && ' ' !in b2
    requires p1 + " " + b1 == p2 + " " + b2
    ensures p1 == p2 && b1 == b2
  {
    var s1, s2 := p1 + " " + b1, p2 + " " + b2;
    assert forall k :: |p1| < k < |s1| ==> s1[k] == b1[k - |p1| - 1];
    assert forall k :: |p2| < k < |s2| ==> s2[k] == b2[k - |p2| - 1];
    assert s1[|p1|] == ' ' && s2[|p2|] == ' ';
    assert |p1| == |p2|;
    assert p1 == s1[..|p1|] && p2 == s2[..|p2|];
    assert b1 == s1[|p1| + 1..] && b2 == s2[|p2| + 1..];
  }

  lemma ToStringHasNoSpace(i: int)
    ensures ' ' !in ToString(i)
  {
  }

  /** Equal strings with equal prefixes have equal remainders, and likewise for equal suffixes. */
  lemma CancelAround(x: string, a1: string, a2: string, y: string)
    requires x + a1 + y == x + a2 + y
    ensures a1 == a2
  {
    var s1, s2 := x + a1 + y, x + a2 + y;
    assert a1 == s1[|x|..|s1| - |y|];
    assert a2 == s2[|x|..|s2| - |y|];
  }

  /** The performance line as the label before the last space, the top speed, and the unit. */
  lemma SpecsLabelShape(car: McLarenCar)
    ensures SpecsLabel(car) ==
      ((ToString(car.horsepower) + (" HP • " + car.acceleration + " •")) + " " + ToString(car.topSpeed)) + " km/h"
  {
  }

  /**
   * The performance line loses nothing: two cars with the same line have the
   * same horsepower, acceleration text and top speed.
   */
  lemma SpecsLabelDeterminesSpecs(c1: McLarenCar, c2: McLarenCar)
    requires SpecsLabel(c1) == SpecsLabel(c2)
    ensures c1.horsepower == c2.horsepower
    ensures c1.acceleration == c2.acceleration
    ensures c1.topSpeed == c2.topSpeed
  {
    var h1, h2 := ToString(c1.horsepower), ToString(c2.horsepower);
    var t1, t2 := ToString(c1.topSpeed), ToString(c2.topSpeed);
    var m1, m2 := " HP • " + c1.acceleration + " •", " HP • " + c2.acceleration + " •";
    ToStringHasNoSpace(c1.horsepower);
    ToStringHasNoSpace(c2.horsepower);
    ToStringHasNoSpace(c1.topSpeed);
    ToStringHasNoSpace(c2.topSpeed);
    SpecsLabelShape(c1);
    SpecsLabelShape(c2);
    var q1, q2 := (h1 + m1) + " " + t1, (h2 + m2) + " " + t2;
    assert [] + q1 + " km/h" == [] + q2 + " km/h" by {
      assert [] + q1 == q1 && [] + q2 == q2;
    }
    CancelAround([], q1, q2, " km/h");
    SplitAtLastSpace(h1 + m1, t1, h2 + m2, t2);
    SplitAtFirstSpace(h1, m1, h2, m2);
    ToStringInjective(c1.horsepower, c2.horsepower);
    ToStringInjective(c1.topSpeed, c2.topSpeed);
    CancelAround(" HP • ", c1.acceleration, c2.acceleration, " •");
  }
}
