/** The state of the storefront page: the cart and the filter panel, replaced
    as a whole by each handler, and the values derived from them on every
    render. */
module Storefront {
  import opened Catalog
  import opened Cart
  import opened Selection

  class Storefront {
    var cart: seq<Product>
    var priceRange: PriceRange
    var selectedEras: seq<string>
    var selectedStyles: seq<string>
    var selectedMaterials: seq<string>
    var selectedSize: string

    /** The page as first rendered: empty cart, initial filter panel. */
    constructor ()
      ensures cart == []
      ensures Panel() == InitialCriteria
      ensures TotalPrice() == 0
    {
      cart := [];
      priceRange := PriceRange(0, PriceCap);
      selectedEras := [];
      selectedStyles := [];
      selectedMaterials := [];
      selectedSize := AllSizes;
    }

    /** The filter panel's current values. */
    function Panel(): (r: Criteria)
      reads this
      ensures r == InitialCriteria <==>
                priceRange == PriceRange(0, PriceCap) && selectedEras == [] && selectedStyles == [] &&
                selectedMaterials == [] && selectedSize == AllSizes
    {
      Criteria(priceRange, selectedEras, selectedStyles, selectedMaterials, selectedSize)
    }

    /** `filteredProducts`: the catalog entries the page currently lists. */
    function Shown(): (r: seq<Product>)
      reads this
      ensures |r| <= |Products|
      ensures forall i :: 0 <= i < |r| ==> Matches(r[i], Panel())
    {
      FilteredProducts(Products, Panel())
    }

    /** `totalPrice`. */
    function TotalPrice(): (r: nat)
      reads this
      ensures cart == [] ==> r == 0
    {
      Total(cart)
    }

    /** `addToCart`: appends one entry; the filters are untouched. */
    method AddToCart(p: Product)
      modifies this
      ensures cart == old(cart) + [p]
      ensures TotalPrice() == old(TotalPrice()) + p.price
      ensures Panel() == old(Panel())
    {
      cart := cart + [p];
      TotalAppend(old(cart), p);
    }

    /** `removeFromCart`: drops every entry with that id; the total falls by
        the prices of the entries dropped. */
    method RemoveFromCart(productId: int)
      modifies this
      ensures cart == WithoutId(old(cart), productId)
      ensures forall i :: 0 <= i < |cart| ==> cart[i].id != productId
      ensures TotalPrice() == old(TotalPrice()) - Total(WithId(old(cart), productId))
      ensures Panel() == old(Panel())
    {
      TotalRemove(cart, productId);
      cart := WithoutId(cart, productId);
    }

    /** The era checkbox handler. */
    method ToggleEra(era: string, checked: bool)
      modifies this
      ensures selectedEras == Toggle(old(selectedEras), era, checked)
      ensures cart == old(cart) && priceRange == old(priceRange)
      ensures selectedStyles == old(selectedStyles) && selectedMaterials == old(selectedMaterials)
      ensures selectedSize == old(selectedSize)
    {
      selectedEras := Toggle(selectedEras, era, checked);
    }

    /** The style checkbox handler. */
    method ToggleStyle(style: string, checked: bool)
      modifies this
      ensures selectedStyles == Toggle(old(selectedStyles), style, checked)
      ensures cart == old(cart) && priceRange == old(priceRange)
      ensures selectedEras == old(selectedEras) && selectedMaterials == old(selectedMaterials)
      ensures selectedSize == old(selectedSize)
    {
      selectedStyles := Toggle(selectedStyles, style, checked);
    }

    /** The material checkbox handler. */
    method ToggleMaterial(material: string, checked: bool)
      modifies this
      ensures selectedMaterials == Toggle(old(selectedMaterials), material, checked)
      ensures cart == old(cart) && priceRange == old(priceRange)
      ensures selectedEras == old(selectedEras) && selectedStyles == old(selectedStyles)
      ensures selectedSize == old(selectedSize)
    {
      selectedMaterials := Toggle(selectedMaterials, material, checked);
    }

    /** The slider handler; the slider itself keeps both thumbs in
        [0, 30000] and in order. */
    method SetPriceRange(range: PriceRange)
      requires 0 <= range.lo <= range.hi <= PriceCap
      modifies this
      ensures Panel() == old(Panel()).(priceRange := range)
      ensures cart == old(cart)
    {
      priceRange := range;
    }

    /** The size selector handler. */
    method SetSelectedSize(size: string)
      modifies this
      ensures Panel() == old(Panel()).(size := size)
      ensures cart == old(cart)
    {
      selectedSize := size;
    }
  }

  /** A page whose panel is in its initial state lists the whole catalog, as
      the page does when first rendered. */
  lemma InitialPageShowsCatalog(page: Storefront)
    requires page.Panel() == InitialCriteria
    ensures page.Shown() == Products
  {
    InitialCatalog();
  }

  /** A session: add one product twice and a second one once, then remove
      the first by its id. Both copies go, and the total is the second
      product's price alone. */
  method CartSession(dress: Product, coat: Product) returns (total: nat)
    requires dress.id != coat.id
    ensures total == coat.price
  {
    var page := new Storefront();
    page.AddToCart(dress);
    page.AddToCart(dress);
    page.AddToCart(coat);
    assert page.cart == [dress, dress, coat];
    page.RemoveFromCart(dress.id);
    RemoveAllCopies(dress, coat);
    assert Total([coat]) == coat.price by { assert [coat][..0] == []; }
    total := page.TotalPrice();
  }
}
