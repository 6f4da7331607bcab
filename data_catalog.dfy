/**
 * The `data` package's record `McLarenCar` (acceleration as text, a local
 * fallback drawable and a network image URL) and the constant catalog
 * `McLarenData.cars` that both grid screens display. This catalog has no
 * queries of its own.
 */
module DataCatalog {

  /**
   * A drawable resource. Android generates the numeric id of
   * `R.drawable.ic_launcher_foreground` at build time, so the model names the
   * resource instead of inventing a number.
   */
  datatype DrawableRes = DrawableRes(name: string)

  const IcLauncherForeground: DrawableRes := DrawableRes("ic_launcher_foreground")

  /** `McLarenData.UNSPLASH_BASE`. */
  const UnsplashBase: string := "https://images.unsplash.com"

  datatype McLarenCar = McLarenCar(
    id: int,
    name: string,
    series: string,
    year: int,
    horsepower: int,
    acceleration: string,   // 0-100 km/h time, already formatted
    topSpeed: int,          // km/h
    price: string,
    imageRes: DrawableRes,  // local fallback image
    imageUrl: string,       // network image
    description: string,
    isFeatured: bool := false
  )

  /** `McLarenData.cars`. */
  function Cars(): (r: seq<McLarenCar>)
    ensures |r| == 8
  {
    [
      McLarenCar(1, "McLaren P1", "Ultimate Series", 2013, 903, "2.8s", 350, "$1.15M",
        IcLauncherForeground, UnsplashBase + "/photo-1544636331-e26879cd4d9b?w=800&q=80",
        "Hybrid hypercar with F1-derived technology", true),
      McLarenCar(2, "McLaren 720S", "Super Series", 2017, 710, "2.9s", 341, "$299K",
        IcLauncherForeground, UnsplashBase + "/photo-1621135802920-133df287f89c?w=800&q=80",
        "The benchmark in the supercar segment", false),
      McLarenCar(3, "McLaren Artura", "Super Series", 2021, 671, "3.0s", 330, "$237K",
        IcLauncherForeground, UnsplashBase + "/photo-1503376780353-7e6692767b70?w=800&q=80",
        "Next-generation hybrid supercar", true),
      McLarenCar(4, "McLaren 765LT", "Longtail", 2020, 755, "2.8s", 330, "$358K",
        IcLauncherForeground, UnsplashBase + "/photo-1542362567-b07e54358753?w=800&q=80",
        "Track-focused, limited production", false),
      McLarenCar(5, "McLaren Senna", "Ultimate Series", 2018, 789, "2.8s", 335, "$958K",
        IcLauncherForeground, UnsplashBase + "/photo-1558618666-fcd25c85cd64?w=800&q=80",
        "Ultimate track-concentrated road car", true),
      McLarenCar(6, "McLaren GT", "GT", 2019, 612, "3.2s", 326, "$210K",
        IcLauncherForeground, UnsplashBase + "/photo-1552519507-da3b142c6e3d?w=800&q=80",
        "Grand touring with supercar DNA", false),
      McLarenCar(7, "McLaren Elva", "Ultimate Series", 2020, 804, "2.8s", 327, "$1.69M",
        IcLauncherForeground, UnsplashBase + "/photo-1583121274602-3e2820c69888?w=800&q=80",
        "Open-cockpit, roofless roadster", true),
      McLarenCar(8, "McLaren Speedtail", "Ultimate Series", 2019, 1035, "2.5s", 403, "$2.25M",
        IcLauncherForeground, UnsplashBase + "/photo-1494976388531-d1058494cdd8?w=800&q=80",
        "Hyper-GT with central driving position", true)
    ]
  }

  /** A car built without naming `isFeatured` is not featured. */
  lemma IsFeaturedDefaultsToFalse(id: int, name: string, series: string, year: int,
      horsepower: int, acceleration: string, topSpeed: int, price: string,
      imageRes: DrawableRes, imageUrl: string, description: string)
    ensures !McLarenCar(id, name, series, year, horsepower, acceleration, topSpeed, price,
      imageRes, imageUrl, description).isFeatured
  {
  }

  /** The catalog's ids are 1..8 in order. */
  lemma CatalogIds()
    ensures |Cars()| == 8
    ensures forall k :: 0 <= k < |Cars()| ==> Cars()[k].id == k + 1
  {
  }

  /** Every id is positive and no two entries share one. */
  lemma CatalogIdsPositiveAndDistinct()
    ensures forall k :: 0 <= k < |Cars()| ==> Cars()[k].id > 0
    ensures forall i, j :: 0 <= i < j < |Cars()| ==> Cars()[i].id != Cars()[j].id
  {
    CatalogIds();
  }

  /** The featured entries are exactly those with ids 1, 3, 5, 7 and 8. */
  lemma CatalogFeatured()
    ensures forall c :: c in Cars() ==> (c.isFeatured <==> c.id in {1, 3, 5, 7, 8})
  {
  }

  /** Every network image lives under the Unsplash base URL. */
  lemma CatalogImageUrls()
    ensures forall c :: c in Cars() ==> UnsplashBase <= c.imageUrl
  {
  }

  /** Every entry falls back to the same local drawable. */
  lemma CatalogFallbackImage()
    ensures forall c :: c in Cars() ==> c.imageRes == IcLauncherForeground
  {
  }
}
