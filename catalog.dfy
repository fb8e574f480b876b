/** The product catalog of the storefront and its filter panel: price range,
    era, style, material and size, combined by logical AND. */
module Catalog {
  import opened JsArray

  /** A catalog entry. The `image` asset reference is display data and is not
      modelled. Prices are whole roubles. */
  datatype Product = Product(
    id: int,
    name: string,
    price: nat,
    era: string,
    style: string,
    material: string,
    size: seq<string>)

  /** The two thumbs of the price slider: `priceRange[0]` and `priceRange[1]`. */
  datatype PriceRange = PriceRange(lo: int, hi: int)

  /** The filter panel's state. An empty era, style or material selection
      means "no constraint on that dimension". */
  datatype Criteria = Criteria(
    priceRange: PriceRange,
    eras: seq<string>,
    styles: seq<string>,
    materials: seq<string>,
    size: string)

  /** The size-selector value that stands for "every size". */
  const AllSizes: string := "all"

  /** The slider's upper end. */
  const PriceCap: nat := 30000

  /** The hard-coded catalog, in display order. */
  const Products: seq<Product> := [
    Product(1, "Винтажный блейзер", 15000, "1970s", "Классика", "Шерсть", ["S", "M", "L"]),
    Product(2, "Архивное платье", 22000, "1960s", "Коктейльный", "Шёлк", ["XS", "S", "M"]),
    Product(3, "Ретро пальто", 28000, "1980s", "Оверсайз", "Кашемир", ["M", "L", "XL"]),
    Product(4, "Винтажные брюки", 12000, "1970s", "Кэжуал", "Деним", ["S", "M", "L", "XL"]),
    Product(5, "Архивная юбка", 18000, "1960s", "А-силуэт", "Твид", ["XS", "S", "M"]),
    Product(6, "Ретро жакет", 20000, "1980s", "Деловой", "Лён", ["M", "L"])
  ]

  /** The panel as the page first shows it: the whole slider, nothing ticked,
      every size. */
  const InitialCriteria: Criteria := Criteria(PriceRange(0, PriceCap), [], [], [], AllSizes)

  /** The price test. Both ends of the range are inclusive, and a range
      whose ends are out of order admits no price. */
  predicate PriceMatch(p: Product, range: PriceRange): (b: bool)
    ensures range.lo > range.hi ==> !b
    ensures range.lo <= range.hi && (p.price == range.lo || p.price == range.hi) ==> b
  {
    range.lo <= p.price && p.price <= range.hi
  }

  /** The rule for the era, style and material checkboxes: nothing ticked
      accepts every value, otherwise the value must be one of those ticked. */
  predicate SelectionMatch(selected: seq<string>, value: string): (b: bool)
    ensures |selected| == 0 ==> b
    ensures forall i :: 0 <= i < |selected| && selected[i] == value ==> b
    ensures b && |selected| > 0 ==> exists i :: 0 <= i < |selected| && selected[i] == value
  {
    |selected| == 0 || value in selected
  }

  /** The size selector: "all" accepts every product, any other value only the
      products offered in that size. */
  predicate SizeMatch(selected: string, sizes: seq<string>): (b: bool)
    ensures selected == AllSizes ==> b
    ensures selected != AllSizes ==> (b <==> exists i :: 0 <= i < |sizes| && sizes[i] == selected)
  {
    selected == AllSizes || selected in sizes
  }

  /** The five tests of the filter, all of which must pass. With nothing
      ticked and every size chosen, only the price decides. */
  predicate Matches(p: Product, c: Criteria): (b: bool)
    ensures b ==> c.priceRange.lo <= p.price <= c.priceRange.hi
    ensures c.eras == [] && c.styles == [] && c.materials == [] && c.size == AllSizes ==>
              (b <==> c.priceRange.lo <= p.price <= c.priceRange.hi)
  {
    PriceMatch(p, c.priceRange) &&
    SelectionMatch(c.eras, p.era) &&
    SelectionMatch(c.styles, p.style) &&
    SelectionMatch(c.materials, p.material) &&
    SizeMatch(c.size, p.size)
  }

  /** `products.filter(...)` with the panel's criteria. */
  function FilteredProducts(ps: seq<Product>, c: Criteria): (r: seq<Product>)
    ensures |r| <= |ps|
    ensures forall i :: 0 <= i < |r| ==> Matches(r[i], c)
  {
    Filter(ps, p => Matches(p, c))
  }

  /** A product is shown if and only if the catalog lists it and it passes
      all five tests at once. */
  lemma FilteredProductsMembers(ps: seq<Product>, c: Criteria, p: Product)
    ensures p in FilteredProducts(ps, c) <==>
              p in ps && PriceMatch(p, c.priceRange) &&
              SelectionMatch(c.eras, p.era) && SelectionMatch(c.styles, p.style) &&
              SelectionMatch(c.materials, p.material) && SizeMatch(c.size, p.size)
  {
    FilterMembers(ps, q => Matches(q, c), p);
  }

  /** The filter result is exactly the order-preserving subsequence of the
      products that pass all five tests: it is a subsequence of the catalog,
      holds only passing products, and any other subsequence of passing
      products is shorter or equal to it. */
  lemma FilteredProductsExact(ps: seq<Product>, c: Criteria, other: seq<Product>)
    ensures IsSubsequence(FilteredProducts(ps, c), ps)
    ensures IsSubsequence(other, ps) && (forall i :: 0 <= i < |other| ==> Matches(other[i], c)) ==>
              |other| <= |FilteredProducts(ps, c)| &&
              (|other| == |FilteredProducts(ps, c)| ==> other == FilteredProducts(ps, c))
  {
    FilterIsSubsequence(ps, p => Matches(p, c));
    if IsSubsequence(other, ps) && (forall i :: 0 <= i < |other| ==> Matches(other[i], c)) {
      FilterIsLongest(other, ps, p => Matches(p, c));
    }
  }

  /** A product is shown as many times as the catalog lists it if it passes,
      and not at all otherwise. */
  lemma FilteredProductsCount(ps: seq<Product>, c: Criteria, p: Product)
    ensures multiset(FilteredProducts(ps, c))[p] == if Matches(p, c) then multiset(ps)[p] else 0
  {
    FilterCount(ps, q => Matches(q, c), p);
  }

  /** A product priced exactly at either thumb of the slider passes the price
      test. */
  lemma PriceBoundsInclusive(p: Product, c: Criteria)
    requires c.priceRange.lo <= c.priceRange.hi
    requires p.price == c.priceRange.lo || p.price == c.priceRange.hi
    ensures PriceMatch(p, c.priceRange)
  {
  }

  /** Ticking boxes on a dimension accepts the union of the ticked values:
      with two non-empty groups of ticked values, a product passes with both
      ticked if and only if it passes with one group or the other. */
  lemma SelectionUnion(a: seq<string>, b: seq<string>, v: string)
    requires |a| > 0 && |b| > 0
    ensures SelectionMatch(a + b, v) <==> SelectionMatch(a, v) || SelectionMatch(b, v)
  {
  }

  /** The union rule seen through the whole filter, for the era checkboxes. */
  lemma ErasUnion(ps: seq<Product>, c: Criteria, a: seq<string>, b: seq<string>, p: Product)
    requires |a| > 0 && |b| > 0
    ensures p in FilteredProducts(ps, c.(eras := a + b)) <==>
              p in FilteredProducts(ps, c.(eras := a)) || p in FilteredProducts(ps, c.(eras := b))
  {
    SelectionUnion(a, b, p.era);
    FilteredProductsMembers(ps, c.(eras := a + b), p);
    FilteredProductsMembers(ps, c.(eras := a), p);
    FilteredProductsMembers(ps, c.(eras := b), p);
  }

  /** Un-ticking every era box lifts the era constraint: what was shown stays
      shown. */
  lemma EmptyErasNoConstraint(ps: seq<Product>, c: Criteria, p: Product)
    requires p in FilteredProducts(ps, c)
    ensures p in FilteredProducts(ps, c.(eras := []))
  {
    FilteredProductsMembers(ps, c, p);
    FilteredProductsMembers(ps, c.(eras := []), p);
  }

  /** Choosing one size equals showing every size and then keeping the
      products offered in that size. */
  lemma {:induction false} SizeNarrows(ps: seq<Product>, c: Criteria, s: string)
    requires s != AllSizes
    ensures FilteredProducts(ps, c.(size := s)) ==
              Filter(FilteredProducts(ps, c.(size := AllSizes)), (p: Product) => s in p.size)
  {
    if ps != [] {
      SizeNarrows(ps[1..], c, s);
      var all := FilteredProducts(ps, c.(size := AllSizes));
      if Matches(ps[0], c.(size := AllSizes)) {
        assert all == [ps[0]] + FilteredProducts(ps[1..], c.(size := AllSizes));
        assert all[0] == ps[0] && all[1..] == FilteredProducts(ps[1..], c.(size := AllSizes));
      }
    }
  }

  /** Catalog ids are unique, and every price lies between 12000 and 28000,
      inside the slider's range. */
  lemma CatalogData()
    ensures forall i, j :: 0 <= i < j < |Products| ==> Products[i].id != Products[j].id
    ensures forall i :: 0 <= i < |Products| ==> 12000 <= Products[i].price <= 28000 <= PriceCap
  {
  }

  /** With the initial panel every product priced within the slider is shown,
      in catalog order. */
  lemma {:induction false} InitialCriteriaKeepsAll(ps: seq<Product>)
    requires forall i :: 0 <= i < |ps| ==> ps[i].price <= PriceCap
    ensures FilteredProducts(ps, InitialCriteria) == ps
  {
    FilterKeepsAll(ps, p => Matches(p, InitialCriteria));
  }

  /** On first display the whole six-product catalog is shown. */
  lemma InitialCatalog()
    ensures FilteredProducts(Products, InitialCriteria) == Products
    ensures |FilteredProducts(Products, InitialCriteria)| == 6
  {
    CatalogData();
    InitialCriteriaKeepsAll(Products);
  }

  /** The dress priced 22000 is hidden by the range [0, 20000] and shown by
      [20000, 30000]; the jacket priced 20000 lies on that range's lower end
      and is shown. */
  lemma PriceScenario()
    ensures Products[1] !in FilteredProducts(Products, InitialCriteria.(priceRange := PriceRange(0, 20000)))
    ensures Products[1] in FilteredProducts(Products, InitialCriteria.(priceRange := PriceRange(20000, PriceCap)))
    ensures Products[5] in FilteredProducts(Products, InitialCriteria.(priceRange := PriceRange(20000, PriceCap)))
  {
    var dress, jacket := Products[1], Products[5];
    assert dress.price == 22000 && jacket.price == 20000;
    FilteredProductsMembers(Products, InitialCriteria.(priceRange := PriceRange(0, 20000)), dress);
    FilteredProductsMembers(Products, InitialCriteria.(priceRange := PriceRange(20000, PriceCap)), dress);
    FilteredProductsMembers(Products, InitialCriteria.(priceRange := PriceRange(20000, PriceCap)), jacket);
  }

  /** Size "XS" shows exactly the dress and the skirt. */
  lemma SizeScenario()
    ensures FilteredProducts(Products, InitialCriteria.(size := "XS")) == [Products[1], Products[4]]
  {
    // Stepping through the suffixes keeps the unfolding of the filter cheap.
    var c := InitialCriteria.(size := "XS");
    assert FilteredProducts(Products[5..], c) == [];
    assert FilteredProducts(Products[4..], c) == [Products[4]];
    assert FilteredProducts(Products[3..], c) == [Products[4]];
    assert FilteredProducts(Products[2..], c) == [Products[4]];
    assert FilteredProducts(Products[1..], c) == [Products[1], Products[4]];
  }

  /** The two eras 1960s and 1970s, ticked together. */
  const TwoEras: Criteria := InitialCriteria.(eras := ["1960s", "1970s"])

  /** The last three products under the two ticked eras: only the trousers
      and the skirt. */
  lemma TwoErasTail()
    ensures FilteredProducts(Products[3..], TwoEras) == [Products[3], Products[4]]
  {
    assert FilteredProducts(Products[5..], TwoEras) == [];
    assert FilteredProducts(Products[4..], TwoEras) == [Products[4]];
  }

  /** Ticking two eras shows the products of either era, not of both. */
  lemma TwoErasScenario()
    ensures FilteredProducts(Products, TwoEras) ==
              [Products[0], Products[1], Products[3], Products[4]]
  {
    TwoErasTail();
    assert FilteredProducts(Products[2..], TwoEras) == [Products[3], Products[4]];
    assert FilteredProducts(Products[1..], TwoEras) == [Products[1], Products[3], Products[4]];
  }
}
