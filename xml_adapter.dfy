/**
 * The RecyclerView adapter `McLarenAdapter` of the view-based screen: its
 * table of card heights, the item count, and `onBindViewHolder`, which
 * writes one car's fields into a recycled view holder.
 */
module XmlAdapter {
  import opened Options
  import opened KotlinInt
  import opened DataCatalog
  import ComposeCard

  /** `cardHeights`: card heights in dp, indexed by `id % 3`. */
  const CardHeights: seq<int> := [280, 220, 250]

  /** The result of `cardHeights[index]`: a height, or Kotlin's IndexOutOfBoundsException. */
  datatype HeightLookup = Height(dp: int) | IndexOutOfBounds(index: int)

  /**
   * `cardHeights[car.id % 3]`, with Kotlin's `%`. Whenever the index is in
   * bounds the table gives the Compose card's height; when it is not, the
   * index is the negative remainder.
   */
  function CardHeightLookup(id: int): (r: HeightLookup)
    ensures r.Height? ==> r.dp == ComposeCard.CardHeight(id)
    ensures r.IndexOutOfBounds? ==> r.index == Rem(id, 3) && r.index < 0
  {
    var index := Rem(id, 3);
    if 0 <= index < |CardHeights| then Height(CardHeights[index]) else IndexOutOfBounds(index)
  }

  /** For every id from 0 up the table gives the Compose card's height. */
  lemma LookupAgreesWithCompose(id: int)
    requires id >= 0
    ensures CardHeightLookup(id) == Height(ComposeCard.CardHeight(id))
  {
    RemOfNonNegative(id, 3);
  }

  /** The lookup fails exactly for the negative ids that 3 does not divide. */
  lemma LookupFailsIff(id: int)
    ensures CardHeightLookup(id).IndexOutOfBounds? <==> id < 0 && id % 3 != 0
  {
    if id < 0 {
      assert Rem(id, 3) == -((-id) % 3);
      assert (-id) % 3 == 0 <==> id % 3 == 0;
    }
  }

  /** Where the lookup fails, the index is negative and the Compose card shows the medium height. */
  lemma LookupDivergesFromCompose(id: int)
    requires id < 0 && id % 3 != 0
    ensures CardHeightLookup(id) == IndexOutOfBounds(Rem(id, 3)) && Rem(id, 3) < 0
    ensures ComposeCard.CardHeight(id) == ComposeCard.MediumDp
  {
    LookupFailsIff(id);
    ComposeCard.NegativeIdsGetMediumCard(id);
  }

  /** Id -1: the adapter indexes `cardHeights[-1]` while the Compose card is 250 dp tall. */
  lemma MinusOneDiverges()
    ensures CardHeightLookup(-1) == IndexOutOfBounds(-1)
    ensures ComposeCard.CardHeight(-1) == 250
  {
  }

  /** Every car of `McLarenData.cars` has `id % 3` in 0..2, so the lookup succeeds and agrees with Compose. */
  lemma CatalogHeightsInBounds()
    ensures forall c :: c in DataCatalog.Cars() ==>
      0 <= Rem(c.id, 3) < 3 && CardHeightLookup(c.id) == Height(ComposeCard.CardHeight(c.id))
  {
    var cars := DataCatalog.Cars();
    DataCatalog.CatalogIds();
    forall c | c in cars
      ensures 0 <= Rem(c.id, 3) < 3 && CardHeightLookup(c.id) == Height(ComposeCard.CardHeight(c.id))
    {
      var k :| 0 <= k < |cars| && cars[k] == c;
      LookupAgreesWithCompose(c.id);
    }
  }

  datatype Visibility = Visible | Gone

  /** The views of one grid item (`ItemMclarenCarBinding`) that binding writes. */
  class McLarenViewHolder {
    var carName: string
    var seriesBadge: string
    var yearBadge: string
    var carPrice: string
    var specsText: string
    var featuredBadge: Visibility
    var imageHeightPx: int
    /** The car the root view's click listener hands to `onItemClick`; None while no listener is set. */
    var clickCar: Option<McLarenCar>

    /** A freshly inflated item: empty texts, layout height and no click listener. */
    constructor (featuredBadge: Visibility, imageHeightPx: int)
      ensures carName == seriesBadge == yearBadge == carPrice == specsText == ""
      ensures this.featuredBadge == featuredBadge && this.imageHeightPx == imageHeightPx
      ensures clickCar == None
    {
      carName, seriesBadge, yearBadge, carPrice, specsText := "", "", "", "", "";
      this.featuredBadge := featuredBadge;
      this.imageHeightPx := imageHeightPx;
      clickCar := None;
    }
  }

  /** How `onBindViewHolder` ends: normally, or with the exception it throws. */
  datatype BindOutcome = Bound | PositionOutOfBounds | HeightIndexOutOfBounds(index: int)

  class McLarenAdapter {
    const cars: seq<McLarenCar>

    constructor (cars: seq<McLarenCar>)
      ensures this.cars == cars
    {
      this.cars := cars;
    }

    /** `getItemCount()`. */
    function ItemCount(): (n: nat)
      ensures n == |cars|
    {
      |cars|
    }

    /**
     * `onBindViewHolder(holder, position)`. `toPx` stands for the conversion
     * `(heightDp * density).toInt()`. `cars[position]` throws before anything
     * is written; `cardHeights[car.id % 3]` throws after the texts and the
     * badge are set, leaving the height and the click listener as they were.
     * A full bind shows what the Compose card shows for the same car.
     */
    method OnBindViewHolder(holder: McLarenViewHolder, position: int, toPx: int -> int)
      returns (outcome: BindOutcome)
      modifies holder
      ensures outcome == PositionOutOfBounds <==> !(0 <= position < ItemCount())
      ensures outcome == PositionOutOfBounds ==> unchanged(holder)
      ensures outcome != PositionOutOfBounds ==>
        var car := cars[position];
        var card := ComposeCard.Card(car);
        && holder.carName == car.name == card.nameText
        && holder.seriesBadge == car.series == card.seriesText
        && holder.yearBadge == ToString(car.year) == card.yearText
        && holder.carPrice == car.price == card.priceText
        && holder.specsText == card.specsText
        && (holder.featuredBadge == Visible <==> card.featuredBadge)
        && (outcome == Bound <==> CardHeightLookup(car.id).Height?)
        && (outcome == Bound ==>
              holder.imageHeightPx == toPx(card.heightDp) && holder.clickCar == Some(car))
        && (outcome != Bound ==>
              outcome == HeightIndexOutOfBounds(Rem(car.id, 3))
              && holder.imageHeightPx == old(holder.imageHeightPx)
              && holder.clickCar == old(holder.clickCar))
    {
      if !(0 <= position < |cars|) {
        return PositionOutOfBounds;
      }
      var car := cars[position];
      ghost var card := ComposeCard.Card(car);
      holder.carName := car.name;
      holder.seriesBadge := car.series;
      holder.yearBadge := ToString(car.year);
      holder.carPrice := car.price;
      holder.specsText := ToString(car.horsepower) + " HP • " + car.acceleration + " • "
        + ToString(car.topSpeed) + " km/h";
      holder.featuredBadge := if car.isFeatured then Visible else Gone;
      assert holder.carName == card.nameText && holder.seriesBadge == card.seriesText
        && holder.yearBadge == card.yearText && holder.carPrice == card.priceText
        && holder.specsText == card.specsText;
      var index := Rem(car.id, 3);
      if !(0 <= index < |CardHeights|) {
        assert CardHeightLookup(car.id) == IndexOutOfBounds(index);
        return HeightIndexOutOfBounds(index);
      }
      var heightDp := CardHeights[index];
      assert CardHeightLookup(car.id) == Height(heightDp);
      holder.imageHeightPx := toPx(heightDp);
      holder.clickCar := Some(car);
      outcome := Bound;
    }
  }

  /** Binding any position of an adapter over `McLarenData.cars` completes. */
  method BindCatalogItem(holder: McLarenViewHolder, position: int, toPx: int -> int)
    returns (outcome: BindOutcome)
    requires 0 <= position < |DataCatalog.Cars()|
    modifies holder
    ensures outcome == Bound
    ensures holder.clickCar == Some(DataCatalog.Cars()[position])
  {
    var adapter := new McLarenAdapter(DataCatalog.Cars());
    CatalogHeightsInBounds();
    assert adapter.cars[position] in DataCatalog.Cars();
    outcome := adapter.OnBindViewHolder(holder, position, toPx);
  }
}
