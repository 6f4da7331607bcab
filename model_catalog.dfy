/**
 * The `model` package's record `McLarenCar` (numeric acceleration) and the
 * `McLarenRepository` object: a constant catalog of eight cars and three
 * queries over it. The queries take the catalog as a parameter so that their
 * properties are proved for every list, and then instantiated on `Cars()`.
 */
module ModelCatalog {
  import opened Collections

  datatype McLarenCar = McLarenCar(
    id: int,
    name: string,
    series: string,
    year: int,
    horsepower: int,
    topSpeed: int,          // km/h
    acceleration: real,     // 0-100 km/h in seconds
    price: string,
    imageUrl: string,
    description: string,
    isFeatured: bool := false
  )

  /** `McLarenRepository.cars`. */
  function Cars(): (r: seq<McLarenCar>)
    ensures |r| == 8
  {
    [
      McLarenCar(1, "McLaren P1", "Ultimate Series", 2013, 903, 350, 2.8, "$1,150,000",
        "https://images.unsplash.com/photo-1621135802920-133df287f89c?w=800",
        "Hybrid hypercar with F1-derived technology", true),
      McLarenCar(2, "McLaren 720S", "Super Series", 2017, 710, 341, 2.9, "$299,000",
        "https://images.unsplash.com/photo-1603584173870-7f23fdae1b7a?w=800",
        "The benchmark supercar with prodigious performance", true),
      McLarenCar(3, "McLaren Artura", "Super Series", 2021, 671, 330, 3.0, "$237,500",
        "https://images.unsplash.com/photo-1618843479313-40f8afb4b4d8?w=800",
        "Next-generation High-Performance Hybrid", false),
      McLarenCar(4, "McLaren 750S", "Super Series", 2023, 750, 332, 2.8, "$324,000",
        "https://images.unsplash.com/photo-1544636331-e26879cd4d9b?w=800",
        "The most powerful, lightest Super Series ever", true),
      McLarenCar(5, "McLaren GT", "GT", 2019, 612, 326, 3.2, "$210,000",
        "https://images.unsplash.com/photo-1580274455191-1c62238fa333?w=800",
        "The Grand Tourer with supercar soul", false),
      McLarenCar(6, "McLaren Senna", "Ultimate Series", 2018, 789, 335, 2.8, "$958,966",
        "https://images.unsplash.com/photo-1552519507-da3b142c6e3d?w=800",
        "The ultimate track-focused road car", true),
      McLarenCar(7, "McLaren Speedtail", "Ultimate Series", 2019, 1035, 403, 2.9, "$2,250,000",
        "https://images.unsplash.com/photo-1503376780353-7e6692767b70?w=800",
        "Hyper-GT with central driving position", true),
      McLarenCar(8, "McLaren 600LT", "Longtail", 2018, 592, 328, 2.9, "$256,500",
        "https://images.unsplash.com/photo-1558618666-fcd25c85cd64?w=800",
        "Track-focused Longtail lightweight", false)
    ]
  }

  /** `getFeaturedCars()`: the featured entries, in catalog order. */
  function GetFeaturedCars(cars: seq<McLarenCar>): (r: seq<McLarenCar>)
    ensures IsSubsequence(r, cars)
    ensures forall c :: c in r <==> c in cars && c.isFeatured
    ensures forall c :: multiset(r)[c] == if c.isFeatured then multiset(cars)[c] else 0
  {
    Filter(cars, (c: McLarenCar) => c.isFeatured)
  }

  /** `getCarsBySeries(series)`: the entries of that series, in catalog order; empty when there are none. */
  function GetCarsBySeries(cars: seq<McLarenCar>, series: string): (r: seq<McLarenCar>)
    ensures IsSubsequence(r, cars)
    ensures forall c :: c in r <==> c in cars && c.series == series
    ensures forall c :: multiset(r)[c] == if c.series == series then multiset(cars)[c] else 0
  {
    Filter(cars, (c: McLarenCar) => c.series == series)
  }

  /** The series of every entry, in catalog order (`cars.map { it.series }`). */
  function SeriesColumn(cars: seq<McLarenCar>): (r: seq<string>)
    ensures |r| == |cars| && forall i :: 0 <= i < |cars| ==> r[i] == cars[i].series
  {
    Map(cars, (c: McLarenCar) => c.series)
  }

  /** `getAllSeries()`: every series of the catalog once, in order of first occurrence. */
  function GetAllSeries(cars: seq<McLarenCar>): (r: seq<string>)
    ensures NoDuplicates(r)
    ensures forall s :: s in r <==> exists c :: c in cars && c.series == s
    ensures forall s :: s in r <==> s in SeriesColumn(cars)
    ensures forall i, j :: 0 <= i < j < |r| ==>
      FirstIndex(SeriesColumn(cars), r[i]) < FirstIndex(SeriesColumn(cars), r[j])
  {
    var column := SeriesColumn(cars);
    DistinctKeepsFirstOccurrenceOrder(column);
    DistinctMembers(column);
    assert forall c :: c in cars ==> c.series in column by {
      forall c | c in cars ensures c.series in column {
        var i :| 0 <= i < |cars| && cars[i] == c;
        assert column[i] == c.series;
      }
    }
    Distinct(column)
  }

  /**
   * No series of the catalog is missing from, or invented by,
   * `getCarsBySeries`: it is empty exactly when no entry has that series,
   * that is, exactly when `getAllSeries()` does not list it.
   */
  lemma CarsBySeriesEmptyIff(cars: seq<McLarenCar>, series: string)
    ensures GetCarsBySeries(cars, series) == [] <==> forall c :: c in cars ==> c.series != series
    ensures GetCarsBySeries(cars, series) == [] <==> series !in GetAllSeries(cars)
  {
    var r := GetCarsBySeries(cars, series);
    if r != [] {
      assert r[0] in r;
    }
  }

  /** `getCarsBySeries(s)` for each `s` of `series` in turn, the results concatenated. */
  function CarsOfEachSeries(cars: seq<McLarenCar>, series: seq<string>): seq<McLarenCar>
  {
    if series == [] then []
    else GetCarsBySeries(cars, series[0]) + CarsOfEachSeries(cars, series[1..])
  }

  /** Over a duplicate-free list of series, each car comes back as often as the catalog holds it, if its series is listed. */
  lemma {:induction false} CarsOfEachSeriesCounts(cars: seq<McLarenCar>, series: seq<string>)
    requires NoDuplicates(series)
    ensures forall c ::
      multiset(CarsOfEachSeries(cars, series))[c] == if c.series in series then multiset(cars)[c] else 0
  {
    if series != [] {
      var tail := series[1..];
      assert NoDuplicates(tail) by {
        forall i, j | 0 <= i < j < |tail| ensures tail[i] != tail[j] {
          assert tail[i] == series[i + 1] && tail[j] == series[j + 1];
        }
      }
      assert series[0] !in tail by {
        forall k | 0 <= k < |tail| ensures tail[k] != series[0] {
          assert tail[k] == series[k + 1];
        }
      }
      assert forall x :: x in series <==> x == series[0] || x in tail by {
        assert series == [series[0]] + tail;
      }
      CarsOfEachSeriesCounts(cars, tail);
      var head := GetCarsBySeries(cars, series[0]);
      assert multiset(CarsOfEachSeries(cars, series)) == multiset(head) + multiset(CarsOfEachSeries(cars, tail));
    }
  }

  /**
   * The series groups of a duplicate-free list covering every series
   * partition the catalog: concatenated, they are a permutation of it.
   */
  lemma SeriesPartitionCatalog(cars: seq<McLarenCar>, series: seq<string>)
    requires NoDuplicates(series)
    requires forall c :: c in cars ==> c.series in series
    ensures multiset(CarsOfEachSeries(cars, series)) == multiset(cars)
    ensures |CarsOfEachSeries(cars, series)| == |cars|
  {
    CarsOfEachSeriesCounts(cars, series);
    assert multiset(CarsOfEachSeries(cars, series)) == multiset(cars);
    assert |multiset(CarsOfEachSeries(cars, series))| == |multiset(cars)|;
  }

  /** Querying every series `getAllSeries` returns gives back each car of the catalog exactly once in total. */
  lemma AllSeriesPartitionCatalog(cars: seq<McLarenCar>)
    ensures multiset(CarsOfEachSeries(cars, GetAllSeries(cars))) == multiset(cars)
    ensures |CarsOfEachSeries(cars, GetAllSeries(cars))| == |cars|
  {
    SeriesPartitionCatalog(cars, GetAllSeries(cars));
  }

  /** The ids of a list of cars, in order. */
  function Ids(cars: seq<McLarenCar>): (r: seq<int>)
    ensures |r| == |cars|
  {
    if cars == [] then [] else [cars[0].id] + Ids(cars[1..])
  }

  /** The ids of the featured entries, read off one entry at a time. */
  function FeaturedIds(cars: seq<McLarenCar>): seq<int>
  {
    if cars == [] then []
    else (if cars[0].isFeatured then [cars[0].id] else []) + FeaturedIds(cars[1..])
  }

  /** `getFeaturedCars` seen through the ids is `FeaturedIds`. */
  lemma {:induction false} FeaturedCarsIds(cars: seq<McLarenCar>)
    ensures Ids(GetFeaturedCars(cars)) == FeaturedIds(cars)
  {
    if cars != [] {
      FeaturedCarsIds(cars[1..]);
      var rest := GetFeaturedCars(cars[1..]);
      if cars[0].isFeatured {
        assert GetFeaturedCars(cars) == [cars[0]] + rest;
        assert ([cars[0]] + rest)[1..] == rest;
      }
    }
  }

  /** `distinct` on a list extended by one element. */
  lemma DistinctSnoc(p: seq<string>, x: string)
    ensures Distinct(p + [x]) == if x in p then Distinct(p) else Distinct(p) + [x]
  {
    var q := p + [x];
    assert q[..|q| - 1] == p && q[|q| - 1] == x;
    DistinctMembers(p);
  }


  /** The shape of the catalog: eight entries, ids 1..8, their featured flags and series. */
  lemma CatalogShape(cars: seq<McLarenCar>)
    requires cars == Cars()
    ensures |cars| == 8
    ensures forall k :: 0 <= k < 8 ==> cars[k].id == k + 1
    ensures cars[0].isFeatured && cars[1].isFeatured && !cars[2].isFeatured && cars[3].isFeatured
    ensures !cars[4].isFeatured && cars[5].isFeatured && cars[6].isFeatured && !cars[7].isFeatured
    ensures cars[0].series == cars[5].series == cars[6].series == "Ultimate Series"
    ensures cars[1].series == cars[2].series == cars[3].series == "Super Series"
    ensures cars[4].series == "GT" && cars[7].series == "Longtail"
  {
  }

  /** Any eight-entry list with the catalog's ids and featured flags has featured ids 1, 2, 4, 6, 7. */
  lemma FeaturedIdsOfFlags(cs: seq<McLarenCar>)
    requires |cs| == 8
    requires forall k :: 0 <= k < 8 ==> cs[k].id == k + 1
    requires cs[0].isFeatured && cs[1].isFeatured && !cs[2].isFeatured && cs[3].isFeatured
    requires !cs[4].isFeatured && cs[5].isFeatured && cs[6].isFeatured && !cs[7].isFeatured
    ensures FeaturedIds(cs) == [1, 2, 4, 6, 7]
  {
    forall k | 0 <= k < 8 ensures cs[k..][1..] == cs[k + 1..] && cs[k..][0] == cs[k] { }
    assert FeaturedIds(cs[8..]) == [];
    assert FeaturedIds(cs[7..]) == [];
    assert FeaturedIds(cs[6..]) == [7];
    assert FeaturedIds(cs[5..]) == [6, 7];
    assert FeaturedIds(cs[4..]) == [6, 7];
    assert FeaturedIds(cs[3..]) == [4, 6, 7];
    assert FeaturedIds(cs[2..]) == [4, 6, 7];
    assert FeaturedIds(cs[1..]) == [2, 4, 6, 7];
    assert FeaturedIds(cs[0..]) == [1, 2, 4, 6, 7];
    assert cs[0..] == cs;
  }

  /** On this catalog `getFeaturedCars()` yields ids 1, 2, 4, 6, 7, in that order. */
  lemma FeaturedCarsOfCatalog()
    ensures Ids(GetFeaturedCars(Cars())) == [1, 2, 4, 6, 7]
  {
    var cars := Cars();
    CatalogShape(cars);
    FeaturedIdsOfFlags(cars);
    FeaturedCarsIds(cars);
  }

  /** `distinct` on the first three entries of the catalog's series column, with the series as variables. */
  lemma DistinctOfSeriesRunStart(u: string, s: string)
    requires u != s
    ensures Distinct([u, s, s]) == [u, s]
  {
    assert Distinct([u]) == [u] by { DistinctSnoc([], u); assert [] + [u] == [u]; }
    assert Distinct([u, s]) == [u, s] by { DistinctSnoc([u], s); assert [u] + [s] == [u, s]; }
    DistinctSnoc([u, s], s);
    assert [u, s] + [s] == [u, s, s];
  }

  /** `distinct` on the first five entries of the catalog's series column. */
  lemma DistinctOfSeriesRunPrefix(u: string, s: string, g: string)
    requires u != s && u != g && s != g
    ensures Distinct([u, s, s, s, g]) == [u, s, g]
  {
    var p3, p4 := [u, s, s], [u, s, s, s];
    DistinctOfSeriesRunStart(u, s);
    assert Distinct(p4) == [u, s] by { DistinctSnoc(p3, s); assert p3 + [s] == p4; }
    DistinctSnoc(p4, g);
    assert p4 + [g] == [u, s, s, s, g];
  }

  /** `distinct` on the catalog's whole series column, with the series as variables. */
  lemma DistinctOfSeriesList(u: string, s: string, g: string, l: string)
    requires u != s && u != g && u != l && s != g && s != l && g != l
    ensures Distinct([u, s, s, s, g, u, u, l]) == [u, s, g, l]
  {
    var p5, p6, p7 := [u, s, s, s, g], [u, s, s, s, g, u], [u, s, s, s, g, u, u];
    DistinctOfSeriesRunPrefix(u, s, g);
    assert Distinct(p6) == [u, s, g] by { DistinctSnoc(p5, u); assert p5 + [u] == p6; }
    assert Distinct(p7) == [u, s, g] by { DistinctSnoc(p6, u); assert p6 + [u] == p7; }
    DistinctSnoc(p7, l);
    assert p7 + [l] == [u, s, s, s, g, u, u, l];
  }

  /** `distinct` on a list whose entries run like the catalog's series column. */
  lemma DistinctOfSeriesRun(col: seq<string>, u: string, s: string, g: string, l: string)
    requires |col| == 8 && u != s && u != g && u != l && s != g && s != l && g != l
    requires col[0] == col[5] == col[6] == u && col[1] == col[2] == col[3] == s
    requires col[4] == g && col[7] == l
    ensures Distinct(col) == [u, s, g, l]
  {
    DistinctOfSeriesList(u, s, g, l);
    assert col == [u, s, s, s, g, u, u, l];
  }

  /** On this catalog `getAllSeries()` is the four series in order of first appearance. */
  lemma AllSeriesOfCatalog()
    ensures GetAllSeries(Cars()) == ["Ultimate Series", "Super Series", "GT", "Longtail"]
  {
    var cars := Cars();
    CatalogShape(cars);
    DistinctOfSeriesRun(SeriesColumn(cars), "Ultimate Series", "Super Series", "GT", "Longtail");
  }
}
