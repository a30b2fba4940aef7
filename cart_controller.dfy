/** The cart controller: a manager over the cart store and the product catalog
    whose methods follow the controller's guard chains step by step, edit the
    fetched line sequence in place and save it with one assignment. */
module CartController {
  import opened CartTypes
  import opened CartSpec

  /** Linear search for the first line of `p` (`findIndex`), -1 when absent. */
  method FindIndex(lines: seq<Line>, p: ProductId) returns (index: int)
    ensures index == IndexOf(lines, p)
  {
    index := 0;
    while index < |lines|
      invariant 0 <= index <= |lines|
      invariant forall i :: 0 <= i < index ==> lines[i].productId != p
    {
      if lines[index].productId == p {
        IndexOfAt(lines, index);
        return;
      }
      index := index + 1;
    }
    index := -1;
  }

  class CartManager {
    /** The cart store: each user's saved line sequence (one cart per user). */
    var carts: map<UserId, seq<Line>>
    /** The product catalog; the cart operations read it and never write it. */
    var catalog: map<ProductId, Product>

    /** Every stored cart keeps unique product ids and positive quantities. */
    ghost predicate Valid()
      reads this
    {
      forall u :: u in carts ==> ValidLines(carts[u])
    }

    /** A user's cart as the store holds it: `None` until the first add creates it. */
    function CartOf(userId: UserId): Option<seq<Line>>
      reads this
    {
      if userId in carts then Some(carts[userId]) else None
    }

    constructor (catalog: map<ProductId, Product>)
      ensures this.catalog == catalog && carts == map[] && Valid()
    {
      this.catalog := catalog;
      carts := map[];
    }

    /** addCartItem: add one of `productId` to the user's cart. */
    method AddCartItem(userId: UserId, productId: ProductId) returns (r: Result<Added>)
      modifies this`carts
      ensures var s := Add(old(CartOf(userId)), catalog, productId);
        r == Answer(s) && carts == Store(old(carts), userId, s)
      ensures old(Valid()) ==> Valid()
    {
      if Valid() {
        AddKeepsValid(CartOf(userId), catalog, productId);
      }
      if productId !in catalog {
        return Err(ProductNotFound);
      }
      var product := catalog[productId];
      // `!product.stock > 0` reads `(!product.stock) > 0`: true exactly when stock is 0
      if product.stock == 0 {
        return Err(InsufficientStock);
      }
      var isNew := false;
      var lines: seq<Line>;
      if userId !in carts {
        lines := [Line(productId, 1)];
      } else {
        lines := carts[userId];
        var index := FindIndex(lines, productId);
        if index > -1 {
          var currentQuantity := lines[index].quantity;
          if currentQuantity >= product.stock {
            return Err(StockLimitReached);
          }
          lines := lines[index := lines[index].(quantity := currentQuantity + 1)];
          IndexOfSameIds(carts[userId], lines, productId);
        } else {
          isNew := true;
          lines := lines + [Line(productId, 1)];
          QuantityAfterAppend(carts[userId], Line(productId, 1), productId);
        }
      }
      carts := carts[userId := lines];
      var added := FindIndex(lines, productId);
      r := Ok(Added(lines[added], if isNew then Created else Updated));
    }

    /** getCartByUser: the user's cart joined with the live catalog. */
    function GetCartByUser(userId: UserId): (r: Result<seq<Item>>)
      reads this
      ensures userId !in carts ==> r == Err(CartNotFound)
      ensures userId in carts && carts[userId] == [] ==> r == Err(CartEmpty)
      ensures (userId in carts && carts[userId] != [] &&
               forall j :: 0 <= j < |carts[userId]| ==> carts[userId][j].productId !in catalog)
        ==> r == Err(NoValidProducts)
      ensures r.Ok? <==>
        (userId in carts && exists j :: 0 <= j < |carts[userId]| && carts[userId][j].productId in catalog)
      ensures r.Ok? ==> r.value == Join(carts[userId], catalog)
    {
      GetCartOutcome(CartOf(userId), catalog);
      GetCart(CartOf(userId), catalog)
    }

    /** increaseProductQuantity: add one to the user's line for `productId`, up to stock. */
    method IncreaseProductQuantity(userId: UserId, productId: ProductId) returns (r: Result<Line>)
      modifies this`carts
      ensures var s := Increase(old(CartOf(userId)), catalog, productId);
        r == Answer(s) && carts == Store(old(carts), userId, s)
      ensures old(Valid()) ==> Valid()
    {
      if Valid() {
        StepKeepsValid(CartOf(userId), catalog, productId);
      }
      if productId !in catalog {
        return Err(ProductNotFound);
      }
      var product := catalog[productId];
      if userId !in carts {
        return Err(CartNotFound);
      }
      var lines := carts[userId];
      if |lines| == 0 {
        return Err(CartEmpty);
      }
      var index := FindIndex(lines, productId);
      if index == -1 {
        return Err(LineNotFound);
      }
      var currentQuantity := lines[index].quantity;
      if currentQuantity >= product.stock {
        return Err(StockLimitReached);
      }
      lines := lines[index := lines[index].(quantity := lines[index].quantity + 1)];
      carts := carts[userId := lines];
      r := Ok(lines[index]);
    }

    /** decreaseProductQuantity: take one from the user's line for `productId`, down to 1. */
    method DecreaseProductQuantity(userId: UserId, productId: ProductId) returns (r: Result<Line>)
      modifies this`carts
      ensures var s := Decrease(old(CartOf(userId)), catalog, productId);
        r == Answer(s) && carts == Store(old(carts), userId, s)
      ensures old(Valid()) ==> Valid()
    {
      if Valid() {
        StepKeepsValid(CartOf(userId), catalog, productId);
      }
      if productId !in catalog {
        return Err(ProductNotFound);
      }
      if userId !in carts {
        return Err(CartNotFound);
      }
      var lines := carts[userId];
      if |lines| == 0 {
        return Err(CartEmpty);
      }
      var index := FindIndex(lines, productId);
      if index == -1 {
        return Err(LineNotFound);
      }
      if lines[index].quantity <= 1 {
        return Err(MinimumQuantityReached);
      }
      lines := lines[index := lines[index].(quantity := lines[index].quantity - 1)];
      carts := carts[userId := lines];
      r := Ok(lines[index]);
    }

    /** deleteCartItem: splice the user's line for `productId` out of the cart. */
    method DeleteCartItem(userId: UserId, productId: ProductId) returns (r: Result<()>)
      modifies this`carts
      ensures var s := Delete(old(CartOf(userId)), productId);
        r == Answer(s) && carts == Store(old(carts), userId, s)
      ensures old(Valid()) ==> Valid()
    {
      if Valid() {
        DeleteOutcome(CartOf(userId), productId, productId);
      }
      if userId !in carts {
        return Err(CartNotFound);
      }
      var lines := carts[userId];
      if |lines| == 0 {
        return Err(CartEmpty);
      }
      var index := FindIndex(lines, productId);
      if index == -1 {
        return Err(LineNotFound);
      }
      lines := lines[..index] + lines[index + 1..];
      carts := carts[userId := lines];
      r := Ok(());
    }

    /** deleteAllCartItems: empty the user's cart, which itself stays. */
    method DeleteAllCartItems(userId: UserId) returns (r: Result<()>)
      modifies this`carts
      ensures var s := Clear(old(CartOf(userId)));
        r == Answer(s) && carts == Store(old(carts), userId, s)
      ensures old(Valid()) ==> Valid()
    {
      if userId !in carts {
        return Err(CartNotFound);
      }
      if |carts[userId]| == 0 {
        return Err(CartEmpty);
      }
      carts := carts[userId := []];
      r := Ok(());
    }
  }
}
