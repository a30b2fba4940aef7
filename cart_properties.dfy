/** Properties of sequences of cart requests against one user's cart and a fixed
    catalog, and worked example scenarios. */
module CartProperties {
  import opened CartTypes
  import opened CartSpec

  /** The five mutating requests a user can make on their cart. */
  datatype Request =
    | AddItem(productId: ProductId)
    | IncreaseItem(productId: ProductId)
    | DecreaseItem(productId: ProductId)
    | DeleteItem(productId: ProductId)
    | DeleteAll

  /** The user's cart after one request. */
  function Apply(cart: Option<seq<Line>>, catalog: map<ProductId, Product>, req: Request): (r: Option<seq<Line>>) {
    match req
    case AddItem(p) => Saved(cart, Add(cart, catalog, p))
    case IncreaseItem(p) => Saved(cart, Increase(cart, catalog, p))
    case DecreaseItem(p) => Saved(cart, Decrease(cart, catalog, p))
    case DeleteItem(p) => Saved(cart, Delete(cart, p))
    case DeleteAll => Saved(cart, Clear(cart))
  }

  /** The user's cart after a sequence of requests, one after the other. */
  function Run(cart: Option<seq<Line>>, catalog: map<ProductId, Product>, reqs: seq<Request>): (r: Option<seq<Line>>)
    decreases |reqs|
  {
    if |reqs| == 0 then cart else Run(Apply(cart, catalog, reqs[0]), catalog, reqs[1..])
  }

  /** How many of the requests ask to add `p`. */
  function AddsOf(reqs: seq<Request>, p: ProductId): (r: nat) {
    if |reqs| == 0 then 0
    else (if reqs[0] == AddItem(p) then 1 else 0) + AddsOf(reqs[1..], p)
  }

  /** How many of the requests are adds of `p` that succeed, replaying them in order. */
  function SuccessfulAdds(cart: Option<seq<Line>>, catalog: map<ProductId, Product>, reqs: seq<Request>, p: ProductId): (r: nat)
    decreases |reqs|
  {
    if |reqs| == 0 then 0
    else
      (if reqs[0] == AddItem(p) && Add(cart, catalog, p).Ok? then 1 else 0)
        + SuccessfulAdds(Apply(cart, catalog, reqs[0]), catalog, reqs[1..], p)
  }

  predicate OnlyAdds(reqs: seq<Request>) {
    forall i :: 0 <= i < |reqs| ==> reqs[i].AddItem?
  }

  /** Every line of a catalog product in the cart is within that product's stock. */
  predicate CartWithinStock(cart: Option<seq<Line>>, catalog: map<ProductId, Product>) {
    cart.Some? ==> WithinStock(cart.value, catalog)
  }

  /** One request keeps the cart invariant and the stock ceiling. */
  lemma ApplyKeepsValid(cart: Option<seq<Line>>, catalog: map<ProductId, Product>, req: Request)
    requires ValidCart(cart)
    ensures ValidCart(Apply(cart, catalog, req))
    ensures CartWithinStock(cart, catalog) ==> CartWithinStock(Apply(cart, catalog, req), catalog)
  {
    match req
    case AddItem(p) => AddKeepsValid(cart, catalog, p);
    case IncreaseItem(p) => StepKeepsValid(cart, catalog, p);
    case DecreaseItem(p) => StepKeepsValid(cart, catalog, p);
    case DeleteItem(p) =>
      DeleteOutcome(cart, p, p);
      if Delete(cart, p).Ok? {
        SpliceFacts(cart.value, IndexOf(cart.value, p));
      }
    case DeleteAll =>
  }

  /** Any sequence of requests keeps unique product ids and positive quantities, and,
      while the catalog does not change, never lets a line exceed its product's stock. */
  lemma {:induction false} RunKeepsValid(cart: Option<seq<Line>>, catalog: map<ProductId, Product>, reqs: seq<Request>)
    requires ValidCart(cart)
    ensures ValidCart(Run(cart, catalog, reqs))
    ensures CartWithinStock(cart, catalog) ==> CartWithinStock(Run(cart, catalog, reqs), catalog)
    decreases |reqs|
  {
    if |reqs| > 0 {
      ApplyKeepsValid(cart, catalog, reqs[0]);
      RunKeepsValid(Apply(cart, catalog, reqs[0]), catalog, reqs[1..]);
    }
  }

  /** After any sequence of adds, a product's quantity is what it started at plus the
      number of its adds that succeeded. */
  lemma {:induction false} AddsCount(cart: Option<seq<Line>>, catalog: map<ProductId, Product>, reqs: seq<Request>, p: ProductId)
    requires OnlyAdds(reqs)
    ensures CartQuantity(Run(cart, catalog, reqs), p) == CartQuantity(cart, p) + SuccessfulAdds(cart, catalog, reqs, p)
    decreases |reqs|
  {
    if |reqs| > 0 {
      var c := Apply(cart, catalog, reqs[0]);
      AddQuantity(cart, catalog, reqs[0].productId, p);
      assert OnlyAdds(reqs[1..]) by {
        forall i | 0 <= i < |reqs[1..]| ensures reqs[1..][i].AddItem? {
          assert reqs[1..][i] == reqs[i + 1];
        }
      }
      AddsCount(c, catalog, reqs[1..], p);
    }
  }

  /** While the catalog does not change, adds of a product succeed until the cart holds
      its whole stock: after any sequence of adds the quantity is
      min(start + number of adds of p, stock) (0 for a product not in the catalog). */
  lemma {:induction false} AddsCapped(cart: Option<seq<Line>>, catalog: map<ProductId, Product>, reqs: seq<Request>, p: ProductId)
    requires OnlyAdds(reqs)
    requires CartQuantity(cart, p) <= StockOf(catalog, p)
    ensures var n := CartQuantity(cart, p) + AddsOf(reqs, p);
      CartQuantity(Run(cart, catalog, reqs), p) == if n < StockOf(catalog, p) then n else StockOf(catalog, p)
    decreases |reqs|
  {
    if |reqs| > 0 {
      var c := Apply(cart, catalog, reqs[0]);
      AddQuantity(cart, catalog, reqs[0].productId, p);
      assert OnlyAdds(reqs[1..]) by {
        forall i | 0 <= i < |reqs[1..]| ensures reqs[1..][i].AddItem? {
          assert reqs[1..][i] == reqs[i + 1];
        }
      }
      AddsCapped(c, catalog, reqs[1..], p);
    }
  }

  /** Reading the cart right after a successful remove shows no item for the removed product. */
  lemma RemovalIsTotal(cart: Option<seq<Line>>, catalog: map<ProductId, Product>, p: ProductId)
    requires ValidCart(cart)
    requires Delete(cart, p).Ok?
    ensures var r := GetCart(Saved(cart, Delete(cart, p)), catalog);
      r.Ok? ==> forall k :: 0 <= k < |r.value| ==> r.value[k].productId != p
  {
    var lines := Delete(cart, p).value.lines;
    DeleteOutcome(cart, p, p);
    GetCartOutcome(Saved(cart, Delete(cart, p)), catalog);
    forall k | 0 <= k < |Join(lines, catalog)| ensures Join(lines, catalog)[k].productId != p {
      var j := JoinSound(lines, catalog, k);
    }
  }

  // ---------------------------------------------------------------------------
  // Worked scenarios

  /** Stock 3 and an existing empty cart: the first add appends (Created), the next two
      bump the line (Updated), the fourth fails with StockLimitReached. */
  lemma ScenarioAddUpToStock()
    ensures var catalog := map["A" := Product(3)];
      var c0 := Some([]);
      var r1 := Add(c0, catalog, "A");
      var c1 := Saved(c0, r1);
      var r2 := Add(c1, catalog, "A");
      var c2 := Saved(c1, r2);
      var r3 := Add(c2, catalog, "A");
      var c3 := Saved(c2, r3);
      && Answer(r1) == Ok(Added(Line("A", 1), Created))
      && Answer(r2) == Ok(Added(Line("A", 2), Updated))
      && Answer(r3) == Ok(Added(Line("A", 3), Updated))
      && Add(c3, catalog, "A") == Err(StockLimitReached)
  {
  }

  /** The first add for a user without a cart creates the cart, but answers Updated. */
  lemma ScenarioFirstAddWithoutCart()
    ensures Add(None, map["A" := Product(3)], "A") == Ok(Change(Added(Line("A", 1), Updated), [Line("A", 1)]))
  {
  }

  /** A product with stock 0 cannot be added. */
  lemma ScenarioOutOfStock(cart: Option<seq<Line>>)
    ensures Add(cart, map["A" := Product(0)], "A") == Err(InsufficientStock)
  {
  }

  /** Decrementing a line of quantity 1 is refused and the cart stays as it was. */
  lemma ScenarioDecrementAtOne()
    ensures var cart := Some([Line("A", 1)]);
      && Decrease(cart, map["A" := Product(5)], "A") == Err(MinimumQuantityReached)
      && Saved(cart, Decrease(cart, map["A" := Product(5)], "A")) == cart
  {
  }

  /** A line whose product was deleted is silently left out of the cart view. */
  lemma ScenarioDanglingLine()
    ensures GetCart(Some([Line("A", 2), Line("B", 1)]), map["B" := Product(4)])
         == Ok([Item("B", Product(4), 1)])
  {
    var lines := [Line("A", 2), Line("B", 1)];
    var catalog := map["B" := Product(4)];
    assert "A" !in catalog by { assert "A"[0] != "B"[0]; }
    JoinCons(lines, catalog);
    assert Join(lines, catalog) == Join(lines[1..], catalog);
    JoinCons(lines[1..], catalog);
    assert lines[1..][0] == Line("B", 1);
    assert lines[1..][1..] == [];
    assert Join([], catalog) == [];
    assert Join(lines[1..], catalog) == [Item("B", Product(4), 1)];
  }

  /** Without a cart, every operation that needs one answers CartNotFound (increment and
      decrement first check the product). */
  lemma ScenarioNoCart(catalog: map<ProductId, Product>, p: ProductId)
    requires p in catalog
    ensures Increase(None, catalog, p) == Err(CartNotFound)
    ensures Decrease(None, catalog, p) == Err(CartNotFound)
    ensures Delete(None, p) == Err(CartNotFound)
    ensures Clear(None) == Err(CartNotFound)
    ensures GetCart(None, catalog) == Err(CartNotFound)
  {
  }
}
