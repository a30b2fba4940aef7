/** Data model of the cart subsystem: carts are ordered sequences of lines,
    products are read-only catalog entries, and every operation answers with
    either a tagged error or a success payload. */
module CartTypes {

  type UserId = string
  type ProductId = string

  /** A catalog product as the cart sees it: only its stock bounds quantities. */
  datatype Product = Product(stock: nat)

  /** One entry of a cart: a product reference and how many of it. */
  datatype Line = Line(productId: ProductId, quantity: nat)

  /** One entry of the joined cart view: the line's product resolved to live catalog data. */
  datatype Item = Item(productId: ProductId, product: Product, quantity: nat)

  /** The error kinds the cart operations answer with. */
  datatype Error =
    | ProductNotFound
    | InsufficientStock
    | StockLimitReached
    | CartNotFound
    | CartEmpty
    | LineNotFound
    | NoValidProducts
    | MinimumQuantityReached

  datatype Option<+T> = None | Some(value: T)

  datatype Result<+T> = Ok(value: T) | Err(error: Error)

  /** Whether an add answered "created" (201) or "updated" (200). */
  datatype Status = Created | Updated

  /** The payload of a successful add: the stored line and the created/updated flag. */
  datatype Added = Added(line: Line, status: Status)

  /** A successful mutation: what is answered and the line sequence that is saved. */
  datatype Change<+T> = Change(payload: T, lines: seq<Line>)

  /** At most one line per product. */
  predicate UniqueIds(lines: seq<Line>) {
    forall i, j :: 0 <= i < j < |lines| ==> lines[i].productId != lines[j].productId
  }

  /** No line with quantity 0 is ever stored. */
  predicate Positive(lines: seq<Line>) {
    forall i :: 0 <= i < |lines| ==> lines[i].quantity >= 1
  }

  /** The cart invariant: unique product ids and positive quantities. */
  predicate ValidLines(lines: seq<Line>) {
    UniqueIds(lines) && Positive(lines)
  }

  /** A missing cart is trivially valid. */
  predicate ValidCart(cart: Option<seq<Line>>) {
    cart.Some? ==> ValidLines(cart.value)
  }

  /** Every line whose product is in the catalog is within that product's stock. */
  predicate WithinStock(lines: seq<Line>, catalog: map<ProductId, Product>) {
    forall i :: 0 <= i < |lines| && lines[i].productId in catalog ==>
      lines[i].quantity <= catalog[lines[i].productId].stock
  }

  /** The position of the first line for `p`, or -1 when there is none
      (the semantics of `Array.prototype.findIndex`). */
  function IndexOf(lines: seq<Line>, p: ProductId): (r: int)
    ensures -1 <= r < |lines|
    ensures r == -1 <==> forall i :: 0 <= i < |lines| ==> lines[i].productId != p
    ensures r >= 0 ==> lines[r].productId == p
    ensures r >= 0 ==> forall i :: 0 <= i < r ==> lines[i].productId != p
  {
    if |lines| == 0 then -1
    else if lines[0].productId == p then 0
    else
      var k := IndexOf(lines[1..], p);
      if k == -1 then -1 else k + 1
  }

  /** How many of `p` the line sequence holds (its first line for `p`), 0 when none. */
  function QuantityOf(lines: seq<Line>, p: ProductId): (r: nat) {
    var i := IndexOf(lines, p);
    if i == -1 then 0 else lines[i].quantity
  }

  /** How many of `p` a user's cart holds; a missing cart holds nothing. */
  function CartQuantity(cart: Option<seq<Line>>, p: ProductId): (r: nat) {
    match cart
    case None => 0
    case Some(lines) => QuantityOf(lines, p)
  }

  /** The stock of `p`, where a product missing from the catalog has none. */
  function StockOf(catalog: map<ProductId, Product>, p: ProductId): (r: nat) {
    if p in catalog then catalog[p].stock else 0
  }

  /** A line found at position k is the first for its product. */
  lemma IndexOfAt(lines: seq<Line>, k: nat)
    requires k < |lines|
    requires forall i :: 0 <= i < k ==> lines[i].productId != lines[k].productId
    ensures IndexOf(lines, lines[k].productId) == k
  {
  }

  /** In a cart with unique ids, each line is found at its own position. */
  lemma IndexOfUnique(lines: seq<Line>, k: nat)
    requires UniqueIds(lines)
    requires k < |lines|
    ensures IndexOf(lines, lines[k].productId) == k
  {
    IndexOfAt(lines, k);
  }

  /** Two line sequences with the same ids at the same positions find every product
      at the same position. */
  lemma IndexOfSameIds(a: seq<Line>, b: seq<Line>, p: ProductId)
    requires |a| == |b|
    requires forall i :: 0 <= i < |a| ==> a[i].productId == b[i].productId
    ensures IndexOf(a, p) == IndexOf(b, p)
  {
    var r := IndexOf(a, p);
    if r >= 0 {
      IndexOfAt(b, r);
    }
  }
}
