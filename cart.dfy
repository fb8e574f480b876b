/** The shopping cart: an ordered list of products, duplicates allowed, with
    removal by product id and a running total. */
module Cart {
  import opened JsArray
  import opened Catalog

  /** `cart.reduce((sum, item) => sum + item.price, 0)`: a left fold that
      adds the prices from the first entry to the last. */
  function Total(cart: seq<Product>): (r: nat)
    ensures cart == [] ==> r == 0
  {
    if cart == [] then 0 else Total(cart[..|cart| - 1]) + cart[|cart| - 1].price
  }

  /** `cart.filter(item => item.id !== productId)`: the cart after removal. */
  function WithoutId(cart: seq<Product>, id: int): (r: seq<Product>)
    ensures |r| <= |cart|
    ensures forall i :: 0 <= i < |r| ==> r[i].id != id
  {
    Filter(cart, (item: Product) => item.id != id)
  }

  /** The entries a removal by `id` takes out. */
  function WithId(cart: seq<Product>, id: int): (r: seq<Product>)
    ensures |r| <= |cart|
    ensures forall i :: 0 <= i < |r| ==> r[i].id == id
  {
    Filter(cart, (item: Product) => item.id == id)
  }

  /** An empty cart costs nothing. */
  lemma TotalEmpty()
    ensures Total([]) == 0
  {
  }

  /** Adding one entry raises the total by exactly its price. */
  lemma TotalAppend(cart: seq<Product>, p: Product)
    ensures Total(cart + [p]) == Total(cart) + p.price
  {
  }

  /** No entry costs more than the whole cart. */
  lemma {:induction false} TotalBoundsEntries(cart: seq<Product>, i: nat)
    requires i < |cart|
    ensures cart[i].price <= Total(cart)
    decreases |cart|
  {
    if i < |cart| - 1 {
      TotalBoundsEntries(cart[..|cart| - 1], i);
    }
  }

  /** The total of two carts put end to end is the sum of their totals. */
  lemma {:induction false} TotalConcat(a: seq<Product>, b: seq<Product>)
    ensures Total(a + b) == Total(a) + Total(b)
    decreases |b|
  {
    if b == [] {
      assert a + b == a;
    } else {
      var last := b[|b| - 1];
      var init := b[..|b| - 1];
      assert b == init + [last];
      assert a + b == (a + init) + [last];
      TotalConcat(a, init);
      TotalAppend(a + init, last);
      TotalAppend(init, last);
    }
  }

  /** The total is the sum of the entries' prices, whatever the order of
      summation: reading the cart from the front gives the same value as the
      left fold. */
  lemma TotalCons(p: Product, cart: seq<Product>)
    ensures Total([p] + cart) == p.price + Total(cart)
  {
    TotalConcat([p], cart);
    assert Total([p]) == Total([p][..0]) + p.price;
  }

  /** Removal by id takes out exactly the entries carrying that id, so the
      total falls by the sum of their prices. */
  lemma {:induction false} TotalRemove(cart: seq<Product>, id: int)
    ensures Total(cart) == Total(WithoutId(cart, id)) + Total(WithId(cart, id))
  {
    if cart != [] {
      TotalRemove(cart[1..], id);
      assert cart == [cart[0]] + cart[1..];
      TotalCons(cart[0], cart[1..]);
      if cart[0].id == id {
        TotalCons(cart[0], WithId(cart[1..], id));
      } else {
        TotalCons(cart[0], WithoutId(cart[1..], id));
      }
    }
  }

  /** Removal leaves no entry with that id, and every entry with another id
      stays, as often as it was there and in its original order. */
  lemma RemoveKeepsOthers(cart: seq<Product>, id: int, p: Product)
    ensures p !in WithoutId(cart, id) || p.id != id
    ensures p.id != id ==> multiset(WithoutId(cart, id))[p] == multiset(cart)[p]
    ensures IsSubsequence(WithoutId(cart, id), cart)
  {
    FilterMembers(cart, (item: Product) => item.id != id, p);
    FilterCount(cart, (item: Product) => item.id != id, p);
    FilterIsSubsequence(cart, (item: Product) => item.id != id);
  }

  /** Removal by id splits the cart: every entry either stays or is taken
      out, never both and never neither. */
  lemma RemoveSplits(cart: seq<Product>, id: int)
    ensures multiset(cart) == multiset(WithoutId(cart, id)) + multiset(WithId(cart, id))
  {
    forall x: Product
      ensures multiset(cart)[x] == multiset(WithoutId(cart, id))[x] + multiset(WithId(cart, id))[x]
    {
      FilterCount(cart, (item: Product) => item.id != id, x);
      FilterCount(cart, (item: Product) => item.id == id, x);
    }
  }

  /** Adding a product and then removing its id leaves the cart as removing
      the id alone would: every copy of that product is gone, including those
      added earlier. */
  lemma AddThenRemove(cart: seq<Product>, p: Product)
    ensures WithoutId(cart + [p], p.id) == WithoutId(cart, p.id)
    ensures p !in WithoutId(cart + [p], p.id)
  {
    FilterConcat(cart, [p], (item: Product) => item.id != p.id);
    FilterMembers(cart + [p], (item: Product) => item.id != p.id, p);
  }

  /** Two copies of one product and a different product: removing the id of
      the first takes out both copies. */
  lemma RemoveAllCopies(p: Product, q: Product)
    requires p.id != q.id
    ensures WithoutId([p, p, q], p.id) == [q]
  {
    assert [q][1..] == [];
    assert WithoutId([q], p.id) == [q];
    assert [p, q][1..] == [q];
    assert WithoutId([p, q], p.id) == [q];
    assert [p, p, q][1..] == [p, q];
  }
}
