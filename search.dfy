/**
 * The search results page: the price, rating and Prime filters applied one after another to
 * the fetched products, then the chosen sort; and the handlers that change the filter state.
 */
module Search {
  import opened Wrappers
  import opened Seqs
  import opened Entities

  /** Price bounds are typed in whole currency units; product prices are in hundredths. */
  const CentsPerUnit := 100

  /** `sortBy`; any value other than the four sorts behaves as "featured". */
  datatype SortMode = Featured | PriceLow | PriceHigh | Rating | Reviews

  /** `priceRange`: `None` is the empty input string, which does not filter. */
  datatype PriceRange = PriceRange(min: Option<int>, max: Option<int>)

  /** The five price presets of the sidebar. */
  const UnderThousand := PriceRange(None, Some(1000))
  const ThousandToFiveThousand := PriceRange(Some(1000), Some(5000))
  const FiveToTenThousand := PriceRange(Some(5000), Some(10000))
  const TenToTwentyThousand := PriceRange(Some(10000), Some(20000))
  const OverTwentyThousand := PriceRange(Some(20000), None)

  function AtLeastPrice(min: int): Product -> bool {
    (p: Product) => p.price >= min * CentsPerUnit
  }

  function AtMostPrice(max: int): Product -> bool {
    (p: Product) => p.price <= max * CentsPerUnit
  }

  /** A selected rating counts whole stars; product ratings are in tenths. */
  function AtLeastRating(stars: int): Product -> bool {
    (p: Product) => p.rating >= stars * 10
  }

  function PrimeProduct(): Product -> bool {
    (p: Product) => p.isPrime
  }

  /** A product passes every active filter. */
  predicate Passes(p: Product, range: PriceRange, rating: int, primeOnly: bool) {
    && (range.min.Some? ==> p.price >= range.min.value * CentsPerUnit)
    && (range.max.Some? ==> p.price <= range.max.value * CentsPerUnit)
    && (rating > 0 ==> p.rating >= rating * 10)
    && (primeOnly ==> p.isPrime)
  }

  /** One step of the pipeline: `filter` when the filter is active, the list unchanged otherwise. */
  function Stage(s: seq<Product>, active: bool, f: Product -> bool): seq<Product> {
    if active then Filter(s, f) else s
  }

  /** The filter stage of the pipeline: each active filter applied to the previous result. */
  function ApplyFilters(products: seq<Product>, range: PriceRange, rating: int, primeOnly: bool): seq<Product> {
    var byMin := Stage(products, range.min.Some?, AtLeastPrice(range.min.GetOr(0)));
    var byMax := Stage(byMin, range.max.Some?, AtMostPrice(range.max.GetOr(0)));
    var byRating := Stage(byMax, rating > 0, AtLeastRating(rating));
    Stage(byRating, primeOnly, PrimeProduct())
  }

  lemma StageAppend(a: seq<Product>, b: seq<Product>, active: bool, f: Product -> bool)
    ensures Stage(a + b, active, f) == Stage(a, active, f) + Stage(b, active, f)
  {
    if active {
      FilterAppend(a, b, f);
    }
  }

  lemma StageSingle(x: Product, active: bool, f: Product -> bool)
    ensures Stage([x], active, f) == if !active || f(x) then [x] else []
  {
    assert [x][1..] == [];
  }

  lemma ApplyFiltersAppend(a: seq<Product>, b: seq<Product>, range: PriceRange, rating: int, primeOnly: bool)
    ensures ApplyFilters(a + b, range, rating, primeOnly) ==
      ApplyFilters(a, range, rating, primeOnly) + ApplyFilters(b, range, rating, primeOnly)
  {
    var f1, f2, f3, f4 := AtLeastPrice(range.min.GetOr(0)), AtMostPrice(range.max.GetOr(0)), AtLeastRating(rating), PrimeProduct();
    var a1, b1 := Stage(a, range.min.Some?, f1), Stage(b, range.min.Some?, f1);
    StageAppend(a, b, range.min.Some?, f1);
    var a2, b2 := Stage(a1, range.max.Some?, f2), Stage(b1, range.max.Some?, f2);
    StageAppend(a1, b1, range.max.Some?, f2);
    var a3, b3 := Stage(a2, rating > 0, f3), Stage(b2, rating > 0, f3);
    StageAppend(a2, b2, rating > 0, f3);
    StageAppend(a3, b3, primeOnly, f4);
  }

  lemma ApplyFiltersSingle(x: Product, range: PriceRange, rating: int, primeOnly: bool)
    ensures ApplyFilters([x], range, rating, primeOnly) == if Passes(x, range, rating, primeOnly) then [x] else []
  {
    var f1, f2, f3, f4 := AtLeastPrice(range.min.GetOr(0)), AtMostPrice(range.max.GetOr(0)), AtLeastRating(rating), PrimeProduct();
    StageSingle(x, range.min.Some?, f1);
    StageSingle(x, range.max.Some?, f2);
    StageSingle(x, rating > 0, f3);
    StageSingle(x, primeOnly, f4);
  }

  /** Filtering one product at a time gives the same list as the chain of filters. */
  lemma ApplyFiltersStep(products: seq<Product>, range: PriceRange, rating: int, primeOnly: bool)
    requires products != []
    ensures ApplyFilters(products, range, rating, primeOnly) ==
      (if Passes(products[0], range, rating, primeOnly) then [products[0]] else [])
      + ApplyFilters(products[1..], range, rating, primeOnly)
  {
    assert products == [products[0]] + products[1..];
    ApplyFiltersAppend([products[0]], products[1..], range, rating, primeOnly);
    ApplyFiltersSingle(products[0], range, rating, primeOnly);
  }

  function PassesAll(range: PriceRange, rating: int, primeOnly: bool): Product -> bool {
    (p: Product) => Passes(p, range, rating, primeOnly)
  }

  /** The chain of filters is one filter by the conjunction of the active conditions. */
  lemma {:induction false} ApplyFiltersIsOneFilter(products: seq<Product>, range: PriceRange, rating: int, primeOnly: bool)
    ensures ApplyFilters(products, range, rating, primeOnly) == Filter(products, PassesAll(range, rating, primeOnly))
    decreases |products|
  {
    if products != [] {
      ApplyFiltersStep(products, range, rating, primeOnly);
      ApplyFiltersIsOneFilter(products[1..], range, rating, primeOnly);
    }
  }

  /**
   * Before sorting, the result is an order-preserving sub-list of the fetched products holding
   * exactly those that pass every active filter.
   */
  lemma ApplyFiltersSpec(products: seq<Product>, range: PriceRange, rating: int, primeOnly: bool)
    ensures var r := ApplyFilters(products, range, rating, primeOnly);
      && IsSubsequence(r, products)
      && (forall i :: 0 <= i < |r| ==> Passes(r[i], range, rating, primeOnly))
      && (forall i :: 0 <= i < |products| && Passes(products[i], range, rating, primeOnly) ==> products[i] in r)
  {
    var pass := PassesAll(range, rating, primeOnly);
    ApplyFiltersIsOneFilter(products, range, rating, primeOnly);
    FilterIsSubsequence(products, pass);
    var r := Filter(products, pass);
    assert forall i :: 0 <= i < |r| ==> pass(r[i]);
    assert forall i :: 0 <= i < |products| && pass(products[i]) ==> products[i] in r;
  }

  /** With no filter active every fetched product is shown, in the fetched order. */
  lemma NoFiltersKeepAll(products: seq<Product>)
    ensures ApplyFilters(products, PriceRange(None, None), 0, false) == products
  {
  }

  /** The sort key of each mode; descending sorts use the negated key. */
  function SortKey(mode: SortMode): Product -> int {
    match mode
    case Featured => (p: Product) => 0
    case PriceLow => (p: Product) => p.price
    case PriceHigh => (p: Product) => -p.price
    case Rating => (p: Product) => -p.rating
    case Reviews => (p: Product) => -p.reviewCount
  }

  /** The sort stage: "featured" keeps the order, the others sort by their key. */
  function Arrange(products: seq<Product>, mode: SortMode): seq<Product> {
    if mode == Featured then products else SortByKey(products, SortKey(mode))
  }

  /** Ordered as the sort mode promises, for every pair of positions. */
  predicate OrderedFor(r: seq<Product>, mode: SortMode) {
    match mode
    case Featured => true
    case PriceLow => forall i, j :: 0 <= i < j < |r| ==> r[i].price <= r[j].price
    case PriceHigh => forall i, j :: 0 <= i < j < |r| ==> r[i].price >= r[j].price
    case Rating => forall i, j :: 0 <= i < j < |r| ==> r[i].rating >= r[j].rating
    case Reviews => forall i, j :: 0 <= i < j < |r| ==> r[i].reviewCount >= r[j].reviewCount
  }

  /**
   * Each sort returns a permutation of its input; "price-low" is ascending by price, the other
   * three are descending by their key, and "featured" leaves the list unchanged.
   */
  lemma ArrangeSpec(products: seq<Product>, mode: SortMode)
    ensures var r := Arrange(products, mode);
      && multiset(r) == multiset(products)
      && OrderedFor(r, mode)
      && (mode == Featured ==> r == products)
  {
    var r := Arrange(products, mode);
    if mode != Featured {
      var key := SortKey(mode);
      assert SortedByKey(r, key);
      forall i, j | 0 <= i < j < |r| ensures key(r[i]) <= key(r[j]) {
      }
    }
  }

  /** What the page shows: the filtered products in the chosen order. */
  function Visible(products: seq<Product>, range: PriceRange, rating: int, primeOnly: bool, mode: SortMode): seq<Product> {
    Arrange(ApplyFilters(products, range, rating, primeOnly), mode)
  }

  /** `priceRange.min || priceRange.max || selectedRating > 0 || primeOnly`: the "Clear all" button shows. */
  predicate AnyFilterActive(range: PriceRange, rating: int, primeOnly: bool) {
    range.min.Some? || range.max.Some? || rating > 0 || primeOnly
  }

  /** The rating button handler's new value. */
  function RatingAfterClick(selected: int, clicked: int): (r: int)
    ensures selected == clicked ==> r == 0
    ensures selected != clicked ==> r == clicked
  {
    if selected == clicked then 0 else clicked
  }

  /** Clicking the same rating twice from no selection returns to no selection. */
  lemma RatingClickTwice(clicked: int)
    requires clicked > 0
    ensures RatingAfterClick(0, clicked) == clicked
    ensures RatingAfterClick(RatingAfterClick(0, clicked), clicked) == 0
  {
  }

  class SearchPageState {
    var priceRange: PriceRange
    var selectedRating: int
    var primeOnly: bool
    var sortBy: SortMode

    /** The state when the page mounts. */
    constructor ()
      ensures priceRange == PriceRange(None, None) && selectedRating == 0 && !primeOnly && sortBy == Featured
      ensures !AnyFilterActive(priceRange, selectedRating, primeOnly)
    {
      priceRange := PriceRange(None, None);
      selectedRating := 0;
      primeOnly := false;
      sortBy := Featured;
    }

    /**
     * The render-time pipeline: a copy of the fetched products, each active filter applied in
     * turn, then the sort; the result is the filtered list re-ordered as the mode promises.
     */
    method VisibleProducts(products: seq<Product>) returns (shown: seq<Product>)
      ensures shown == Visible(products, priceRange, selectedRating, primeOnly, sortBy)
      ensures multiset(shown) == multiset(ApplyFilters(products, priceRange, selectedRating, primeOnly))
      ensures OrderedFor(shown, sortBy)
    {
      shown := products;
      if priceRange.min.Some? {
        shown := Filter(shown, AtLeastPrice(priceRange.min.value));
      }
      assert shown == Stage(products, priceRange.min.Some?, AtLeastPrice(priceRange.min.GetOr(0)));
      if priceRange.max.Some? {
        shown := Filter(shown, AtMostPrice(priceRange.max.value));
      }
      if selectedRating > 0 {
        shown := Filter(shown, AtLeastRating(selectedRating));
      }
      if primeOnly {
        shown := Filter(shown, PrimeProduct());
      }
      assert shown == ApplyFilters(products, priceRange, selectedRating, primeOnly);
      ArrangeSpec(shown, sortBy);
      if sortBy != Featured {
        shown := SortByKey(shown, SortKey(sortBy));
      }
    }

    /** A rating button: clicking the selected rating clears it, any other selects it. */
    method ClickRating(rating: int)
      modifies this`selectedRating
      ensures selectedRating == RatingAfterClick(old(selectedRating), rating)
    {
      selectedRating := if selectedRating == rating then 0 else rating;
    }

    /** A price preset button, or the two number inputs. */
    method SetPriceRange(range: PriceRange)
      modifies this`priceRange
      ensures priceRange == range
    {
      priceRange := range;
    }

    method SetPrimeOnly(checked: bool)
      modifies this`primeOnly
      ensures primeOnly == checked
    {
      primeOnly := checked;
    }

    method SetSortBy(mode: SortMode)
      modifies this`sortBy
      ensures sortBy == mode
    {
      sortBy := mode;
    }

    /** "Clear all filters": the price range, rating and Prime-only go back to their defaults; the sort stays. */
    method ClearFilters()
      modifies this`priceRange, this`selectedRating, this`primeOnly
      ensures priceRange == PriceRange(None, None) && selectedRating == 0 && !primeOnly
      ensures !AnyFilterActive(priceRange, selectedRating, primeOnly)
      ensures forall products :: ApplyFilters(products, priceRange, selectedRating, primeOnly) == products
    {
      priceRange := PriceRange(None, None);
      selectedRating := 0;
      primeOnly := false;
      forall products: seq<Product> ensures ApplyFilters(products, priceRange, selectedRating, primeOnly) == products {
        NoFiltersKeepAll(products);
      }
    }
  }
}
