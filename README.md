# McLaren catalog demo, modelled in Dafny

The Android demo shows a catalog of McLaren cars in two staggered two-column
grids. One grid is built with Jetpack Compose, the other with a RecyclerView
over XML layouts. This project models the part of the app that decides what
is shown:

- the two in-memory car catalogs and their queries: featured cars, cars of
  one series, and all series in first-occurrence order;
- the card every car becomes: which text goes where, whether the "featured"
  badge is shown, and the card height chosen from the car's id;
- the RecyclerView adapter's bind step, and its lookup into the list of three
  heights;
- the grid spacing decoration's offsets.

Kotlin's `Int` arithmetic has its own modelled operators (`%` and `/` round
toward zero). So the model can state where the two grids agree and where
they do not:

- For a non-negative id, the adapter's list lookup and the Compose `when`
  choose the same height.
- For a negative id that is not a multiple of 3, the Compose card falls back
  to the medium height. The adapter instead indexes the height list with a
  negative number (`XmlAdapter.LookupFailsIff`). No id in the shipped catalog
  is negative (`XmlAdapter.CatalogHeightsInBounds`).

Modules:

| file | module | models |
|---|---|---|
| `options.dfy` | `Options` | an `Option` datatype |
| `kotlin_int.dfy` | `KotlinInt` | Kotlin `%`, `/` and `Int.toString()` |
| `collections.dfy` | `Collections` | Kotlin `filter`, `map` and `distinct` on lists |
| `model_catalog.dfy` | `ModelCatalog` | `model/McLarenCar.kt`: the record, the catalog and its three queries |
| `data_catalog.dfy` | `DataCatalog` | `data/McLarenCar.kt`: the record with image fields, and the catalog both grids display |
| `compose_card.dfy` | `ComposeCard` | `compose/McLarenComposeGrid.kt`: the card height and the card's content |
| `xml_adapter.dfy` | `XmlAdapter` | `xml/McLarenAdapter.kt`: the view holder, the adapter and its bind step |
| `grid_spacing.dfy` | `GridSpacing` | `xml/GridSpacingItemDecoration.kt`: the item offsets |

The two catalogs do not agree on which cars are featured:

- The query catalog in `model/McLarenCar.kt` features ids 1, 2, 4, 6 and 7
  (`ModelCatalog.FeaturedCarsOfCatalog`).
- The displayed catalog in `data/McLarenCar.kt` features ids 1, 3, 5, 7 and 8
  (`DataCatalog.CatalogFeatured`).

The model follows the flags as each file writes them.

## Model

| member | source | states |
|---|---|---|
| KotlinInt.Rem | AndroidDemo/app/src/main/java/com/example/androiddemo/compose/McLarenComposeGrid.kt:82 | Kotlin `%`: the remainder is smaller than the divisor in magnitude and has the sign of the dividend |
| KotlinInt.Div | AndroidDemo/app/src/main/java/com/example/androiddemo/xml/GridSpacingItemDecoration.kt:28 | Kotlin `/`: the quotient's magnitude is the quotient of the magnitudes (it rounds toward zero) |
| KotlinInt.DivRem | AndroidDemo/app/src/main/java/com/example/androiddemo/xml/GridSpacingItemDecoration.kt:25-28 | Kotlin `/` and `%` are consistent: `(a / b) * b + a % b == a` for every non-zero `b` |
| KotlinInt.RemOfNonNegative | AndroidDemo/app/src/main/java/com/example/androiddemo/xml/McLarenAdapter.kt:72 | for a non-negative dividend and positive divisor, Kotlin `%` agrees with the mathematical remainder |
| KotlinInt.NatToString | AndroidDemo/app/src/main/java/com/example/androiddemo/xml/McLarenAdapter.kt:58 | the decimal rendering of a natural number is a non-empty run of digits, reads back as the same number, and has a leading zero only for zero |
| KotlinInt.ToString | AndroidDemo/app/src/main/java/com/example/androiddemo/xml/McLarenAdapter.kt:58 | `Int.toString()` parses back to the same integer and uses only digits and a minus sign |
| KotlinInt.NumeralRoundTrip | AndroidDemo/app/src/main/java/com/example/androiddemo/xml/McLarenAdapter.kt:58 | every digit string without a leading zero (or "0") is the numeral written for its own value |
| KotlinInt.ToStringOfParseInt | AndroidDemo/app/src/main/java/com/example/androiddemo/xml/McLarenAdapter.kt:58 | whatever the parser accepts is exactly what `Int.toString()` prints for the parsed value, so the two are inverse bijections between integers and numerals |
| KotlinInt.ToStringInjective | AndroidDemo/app/src/main/java/com/example/androiddemo/compose/McLarenComposeGrid.kt:180 | two different integers never have the same decimal text |
| Collections.Filter | AndroidDemo/app/src/main/java/com/example/androiddemo/model/McLarenCar.kt:133 | `filter` keeps exactly the elements satisfying the predicate, each as often as in the input, in their original order (a subsequence) |
| Collections.Map | AndroidDemo/app/src/main/java/com/example/androiddemo/model/McLarenCar.kt:137 | `map` keeps the length and applies the function to each element |
| Collections.FirstIndex | AndroidDemo/app/src/main/java/com/example/androiddemo/model/McLarenCar.kt:137 | the position of an element's first occurrence |
| Collections.Distinct | AndroidDemo/app/src/main/java/com/example/androiddemo/model/McLarenCar.kt:137 | `distinct` never repeats an element |
| Collections.DistinctMembers | AndroidDemo/app/src/main/java/com/example/androiddemo/model/McLarenCar.kt:137 | `distinct` keeps every value of its input and adds none |
| Collections.DistinctKeepsFirstOccurrenceOrder | AndroidDemo/app/src/main/java/com/example/androiddemo/model/McLarenCar.kt:137 | `distinct` lists values in the order of their first occurrence in the input |
| ModelCatalog.Cars | AndroidDemo/app/src/main/java/com/example/androiddemo/model/McLarenCar.kt:26-131 | the query catalog holds eight cars (their ids, flags and series are given by `ModelCatalog.CatalogShape`) |
| ModelCatalog.GetFeaturedCars | AndroidDemo/app/src/main/java/com/example/androiddemo/model/McLarenCar.kt:133 | exactly the featured cars of the catalog, in catalog order and with catalog multiplicities |
| ModelCatalog.GetCarsBySeries | AndroidDemo/app/src/main/java/com/example/androiddemo/model/McLarenCar.kt:135 | exactly the cars of the given series, in catalog order and with catalog multiplicities |
| ModelCatalog.SeriesColumn | AndroidDemo/app/src/main/java/com/example/androiddemo/model/McLarenCar.kt:137 | the series of each car, position by position |
| ModelCatalog.GetAllSeries | AndroidDemo/app/src/main/java/com/example/androiddemo/model/McLarenCar.kt:137 | every series that some car has, each once, in the order in which the catalog first mentions it |
| ModelCatalog.CarsBySeriesEmptyIff | AndroidDemo/app/src/main/java/com/example/androiddemo/model/McLarenCar.kt:135-137 | `getCarsBySeries(s)` is empty exactly when `s` is not among `getAllSeries()` |
| ModelCatalog.CarsOfEachSeriesCounts | AndroidDemo/app/src/main/java/com/example/androiddemo/model/McLarenCar.kt:135 | running `getCarsBySeries` over a list of distinct series and concatenating returns each car as often as the catalog holds it when its series is listed, and never otherwise |
| ModelCatalog.SeriesPartitionCatalog | AndroidDemo/app/src/main/java/com/example/androiddemo/model/McLarenCar.kt:135-137 | for any list of series without repeats that covers every car's series, the concatenated query results are a permutation of the catalog (and so have its size) |
| ModelCatalog.AllSeriesPartitionCatalog | AndroidDemo/app/src/main/java/com/example/androiddemo/model/McLarenCar.kt:135-137 | querying every series from `getAllSeries()` and concatenating the results gives a permutation of the catalog: each car exactly once in total |
| ModelCatalog.FeaturedCarsIds | AndroidDemo/app/src/main/java/com/example/androiddemo/model/McLarenCar.kt:133 | the ids of `getFeaturedCars()` are the ids of the featured cars, scanned in catalog order |
| ModelCatalog.CatalogShape | AndroidDemo/app/src/main/java/com/example/androiddemo/model/McLarenCar.kt:26-131 | the query catalog has eight cars with ids 1 to 8, and gives each car's featured flag and series |
| ModelCatalog.FeaturedCarsOfCatalog | AndroidDemo/app/src/main/java/com/example/androiddemo/model/McLarenCar.kt:26-133 | the featured cars of the query catalog are ids 1, 2, 4, 6 and 7, in that order |
| ModelCatalog.AllSeriesOfCatalog | AndroidDemo/app/src/main/java/com/example/androiddemo/model/McLarenCar.kt:26-137 | the query catalog's series are Ultimate Series, Super Series, GT and Longtail, in that order |
| DataCatalog.IsFeaturedDefaultsToFalse | AndroidDemo/app/src/main/java/com/example/androiddemo/data/McLarenCar.kt:30 | a car built without a featured flag is not featured |
| DataCatalog.Cars | AndroidDemo/app/src/main/java/com/example/androiddemo/data/McLarenCar.kt:46-159 | the displayed catalog holds eight cars |
| DataCatalog.CatalogIds | AndroidDemo/app/src/main/java/com/example/androiddemo/data/McLarenCar.kt:46-159 | the displayed catalog's ids are 1 to 8 in list order |
| DataCatalog.CatalogIdsPositiveAndDistinct | AndroidDemo/app/src/main/java/com/example/androiddemo/data/McLarenCar.kt:46-159 | every id in the displayed catalog is positive and no two cars share one |
| DataCatalog.CatalogFeatured | AndroidDemo/app/src/main/java/com/example/androiddemo/data/McLarenCar.kt:59-157 | a displayed car is featured exactly when its id is 1, 3, 5, 7 or 8 |
| DataCatalog.CatalogImageUrls | AndroidDemo/app/src/main/java/com/example/androiddemo/data/McLarenCar.kt:44-155 | every image URL starts with the Unsplash base address |
| DataCatalog.CatalogFallbackImage | AndroidDemo/app/src/main/java/com/example/androiddemo/data/McLarenCar.kt:56-154 | every car's local image is the launcher foreground drawable |
| ComposeCard.CardHeight | AndroidDemo/app/src/main/java/com/example/androiddemo/compose/McLarenComposeGrid.kt:82-86 | the card height is one of 280, 220 or 250 dp |
| ComposeCard.CardHeightByRemainder | AndroidDemo/app/src/main/java/com/example/androiddemo/compose/McLarenComposeGrid.kt:82-86 | remainder 0 gives 280 dp, remainder 1 gives 220 dp, and any other remainder gives 250 dp |
| ComposeCard.NegativeIdsGetMediumCard | AndroidDemo/app/src/main/java/com/example/androiddemo/compose/McLarenComposeGrid.kt:85 | a negative id that is not a multiple of 3 falls into the `else` branch (250 dp) |
| ComposeCard.CardHeightPeriodic | AndroidDemo/app/src/main/java/com/example/androiddemo/compose/McLarenComposeGrid.kt:82-86 | for non-negative ids the height repeats with period 3 |
| ComposeCard.CardHeightNotPeriodicAcrossZero | AndroidDemo/app/src/main/java/com/example/androiddemo/compose/McLarenComposeGrid.kt:82-86 | the period breaks across zero: id -2 gets 250 dp but id 1 gets 220 dp |
| ComposeCard.CardHeightCycle | AndroidDemo/app/src/main/java/com/example/androiddemo/compose/McLarenComposeGrid.kt:82-86 | ids 3k, 3k+1 and 3k+2 get 280, 220 and 250 dp |
| ComposeCard.Card | AndroidDemo/app/src/main/java/com/example/androiddemo/compose/McLarenComposeGrid.kt:82-202 | the badge shows exactly for featured cars, the height is the id's card height, and the year text reads back as the car's year |
| ComposeCard.SpecsLabel | AndroidDemo/app/src/main/java/com/example/androiddemo/compose/McLarenComposeGrid.kt:180 | the specs line starts with the horsepower numeral and " HP • ", and ends with a space, the top speed numeral and " km/h" |
| ComposeCard.SpecsLabelDeterminesSpecs | AndroidDemo/app/src/main/java/com/example/androiddemo/compose/McLarenComposeGrid.kt:180 | the specs line loses nothing: two cars with the same line have the same horsepower, acceleration and top speed |
| XmlAdapter.CardHeightLookup | AndroidDemo/app/src/main/java/com/example/androiddemo/xml/McLarenAdapter.kt:21-72 | `cardHeights[car.id % 3]`: whenever the index is in bounds the table gives the Compose card height; when it is not, the failing index is the negative remainder |
| XmlAdapter.LookupAgreesWithCompose | AndroidDemo/app/src/main/java/com/example/androiddemo/xml/McLarenAdapter.kt:21-72 | for a non-negative id the adapter's `cardHeights[id % 3]` is the Compose card height |
| XmlAdapter.LookupFailsIff | AndroidDemo/app/src/main/java/com/example/androiddemo/xml/McLarenAdapter.kt:72 | the height lookup indexes outside the list exactly when the id is negative and not a multiple of 3 |
| XmlAdapter.LookupDivergesFromCompose | AndroidDemo/app/src/main/java/com/example/androiddemo/xml/McLarenAdapter.kt:72 | on such an id the adapter's index is negative while the Compose card shows 250 dp |
| XmlAdapter.MinusOneDiverges | AndroidDemo/app/src/main/java/com/example/androiddemo/xml/McLarenAdapter.kt:72 | id -1 makes the adapter index -1, while the Compose card is 250 dp |
| XmlAdapter.CatalogHeightsInBounds | AndroidDemo/app/src/main/java/com/example/androiddemo/xml/McLarenAdapter.kt:72 | every car of the displayed catalog gets an in-bounds index and the Compose height |
| XmlAdapter.McLarenViewHolder.constructor | AndroidDemo/app/src/main/java/com/example/androiddemo/xml/McLarenAdapter.kt:23-34 | a freshly inflated item: empty texts, the layout's badge visibility and image height, and no click listener yet |
| XmlAdapter.McLarenAdapter.constructor | AndroidDemo/app/src/main/java/com/example/androiddemo/xml/McLarenAdapter.kt:16-19 | the adapter holds the list it was given |
| XmlAdapter.McLarenAdapter.ItemCount | AndroidDemo/app/src/main/java/com/example/androiddemo/xml/McLarenAdapter.kt:83 | the item count is the list's size |
| XmlAdapter.McLarenAdapter.OnBindViewHolder | AndroidDemo/app/src/main/java/com/example/androiddemo/xml/McLarenAdapter.kt:36-81 | an invalid position fails before any write. Otherwise the texts and badge equal the Compose card's. The bind completes exactly when the height index is in bounds, and then sets the image height to the card height in pixels and the click target to the car. An out-of-bounds height index leaves the height and click target as they were |
| XmlAdapter.BindCatalogItem | AndroidDemo/app/src/main/java/com/example/androiddemo/xml/McLarenXmlActivity.kt:95 | binding any position of the displayed catalog completes and wires the click to that car |
| GridSpacing.Rect.constructor | AndroidDemo/app/src/main/java/com/example/androiddemo/xml/GridSpacingItemDecoration.kt:19 | the caller-owned `outRect` with the four edges it is given |
| GridSpacing.SideOffset | AndroidDemo/app/src/main/java/com/example/androiddemo/xml/GridSpacingItemDecoration.kt:28-29 | `spacingPx / 2` rounds toward zero: for a non-negative spacing it is the largest half not above it, for a negative spacing the smallest half not below it |
| GridSpacing.GridSpacingItemDecoration.constructor | AndroidDemo/app/src/main/java/com/example/androiddemo/xml/GridSpacingItemDecoration.kt:10-16 | the decoration keeps its span count and pixel spacing |
| GridSpacing.GridSpacingItemDecoration.GetItemOffsets | AndroidDemo/app/src/main/java/com/example/androiddemo/xml/GridSpacingItemDecoration.kt:18-33 | fails exactly when the span count is zero (the column's `%`), leaving the rectangle alone. Otherwise sets left and right to half the spacing, bottom to the spacing, and keeps top |
| GridSpacing.SideOffsetsSum | AndroidDemo/app/src/main/java/com/example/androiddemo/xml/GridSpacingItemDecoration.kt:28-29 | the two side offsets add up to the spacing exactly when it is even. For an odd positive spacing they lose one pixel |
| GridSpacing.OffsetsBounded | AndroidDemo/app/src/main/java/com/example/androiddemo/xml/GridSpacingItemDecoration.kt:28-32 | each side offset is between zero and the bottom offset |
| GridSpacing.GutterBetweenNeighbours | AndroidDemo/app/src/main/java/com/example/androiddemo/xml/GridSpacingItemDecoration.kt:28-29 | the gutter between two neighbouring columns (right of one plus left of the next) is the spacing or one pixel less |

## Left out

- `(dp * density).toInt()` (floating point): the bind step takes the dp-to-pixel conversion as a parameter `toPx`. The decoration takes its spacing already in pixels.
- Image loading with Coil (crossfade, placeholder, error drawable, network): it is I/O. Only the URL and the fallback drawable are modelled.
- Layout inflation in `onCreateViewHolder` and view recycling: the view holder is a class with the bound fields, created with empty texts.
- The click callback: the model records the car the listener was given. The toast the activity shows on click is not modelled.
- Rendering: Compose layout, theme and colours, `MainActivity`, `ComposeExampleScreen`, the activity's layout manager and gap strategy, and the Gradle build.
- Kotlin `Int` is 32 bits wide. None of the modelled operations can overflow on the catalog's values, so integers are unbounded.
- `acceleration` is a `Double` in the query catalog, modelled as `real`. It is a string in the displayed catalog, as written.
- `R.drawable.ic_launcher_foreground` is modelled by its resource name, not its integer id.
- `ParseInt` is not Kotlin's `String.toInt()`. It is the partner of `Int.toString()` and accepts exactly the numerals `toString()` prints (`KotlinInt.ToStringOfParseInt`). So it rejects a leading `+`, leading zeros and "-0", which `toInt()` accepts.
- The `column` value in `getItemOffsets` is computed and never used. The model computes it only for its division-by-zero failure.
