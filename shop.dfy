/** The shop's ordering core: the cart handlers, order placement in its two
    versions (the REST `CreateOrderAPIView.post` of api_shop/views.py and the
    form-based `checkout` of petshop/views.py) and review creation, over one
    database state. Each handler runs as one database transaction: it either
    commits all of its writes or leaves the state exactly as it was. */
module Shop {
  import opened Wrappers
  import opened Models
  import Forms
  import Serializers

  datatype CartError =
    | InvalidQuantity
    | ExceedsStock(available: int)
    | LineNotFound
    | ServerError

  datatype OrderError =
    | EmptyCart
    | NoPickupPoint
    | PickupPointNotFound
    | InvalidForm(errors: Forms.Errors)
    | StockMissing(product: ProductId)
    | InsufficientStock(product: ProductId, available: int)
    | PersistenceFailure
    | MailFailure

  datatype ReviewError =
    | ReviewProductNotFound
    | NothingReceived
    | AllReviewsWritten
    | InvalidReview(errors: seq<Serializers.FieldError>)

  predicate DistinctPoints(points: seq<PointId>) {
    forall i, j :: 0 <= i < j < |points| ==> points[i] != points[j]
  }

  /** One user's cart: catalogue products, positive quantities that fit their
      column, ids below the next free id, and at most one line per product. */
  predicate ValidCart(lines: seq<CartLine>, products: map<ProductId, Product>, nextId: int) {
    (forall i :: 0 <= i < |lines| ==>
       lines[i].product in products && 1 <= lines[i].quantity && IntFits(lines[i].quantity) && 0 < lines[i].id < nextId)
    && (forall i, j :: 0 <= i < j < |lines| ==> lines[i].product != lines[j].product && lines[i].id != lines[j].id)
  }

  predicate DistinctProducts(lines: seq<CartLine>) {
    forall i, j :: 0 <= i < j < |lines| ==> lines[i].product != lines[j].product
  }

  /** The NOT NULL and length constraints of the order's contact columns. */
  predicate ContactFits(c: Contact) {
    c.firstName.Some? && |c.firstName.value| <= 50
    && c.lastName.Some? && |c.lastName.value| <= 50
    && c.email.Some? && |c.email.value| <= 254
    && (c.phone.Some? ==> |c.phone.value| <= 20)
  }

  /** An order number the unique, 20-character column accepts. */
  predicate NumberFree(orders: seq<Order>, number: string) {
    |number| <= 20 && forall i :: 0 <= i < |orders| ==> orders[i].number != number
  }

  /** Whether the order row can be inserted next to `orders`. */
  predicate OrderRowFits(orders: seq<Order>, number: string, contact: Contact, total: int) {
    NumberFree(orders, number) && ContactFits(contact) && MoneyFits(total)
  }

  predicate ValidItem(item: OrderItem, products: map<ProductId, Product>) {
    item.product in products && 1 <= item.quantity && IntFits(item.quantity) && MoneyFits(item.price)
  }

  /** A stored order: its row fits its columns and its total is the sum over its items. */
  predicate ValidOrder(o: Order, products: map<ProductId, Product>, points: seq<PointId>) {
    o.point in points && |o.number| <= 20 && ContactFits(o.contact) && MoneyFits(o.total)
    && o.total == ItemsTotal(o.items)
    && forall i :: 0 <= i < |o.items| ==> ValidItem(o.items[i], products)
  }

  /** The index of the first cart line `accepts` holds for, as `.first()` and
      `.get()` find it in the line order. */
  function FindFirst(lines: seq<CartLine>, accepts: CartLine -> bool): (r: Option<nat>)
    ensures r.Some? ==> r.value < |lines| && accepts(lines[r.value])
                        && forall j :: 0 <= j < r.value ==> !accepts(lines[j])
    ensures r.None? ==> forall j :: 0 <= j < |lines| ==> !accepts(lines[j])
  {
    if lines == [] then None
    else if accepts(lines[0]) then Some(0)
    else
      match FindFirst(lines[1..], accepts)
      case None => None
      case Some(i) => Some(i + 1)
  }

  /** The index of the user's line for the product (`Cart.objects.filter(user=..., product=...).first()`). */
  function FindProduct(lines: seq<CartLine>, product: ProductId): (r: Option<nat>)
    ensures r.Some? ==> r.value < |lines| && lines[r.value].product == product
                        && forall j :: 0 <= j < r.value ==> lines[j].product != product
    ensures r.None? ==> forall j :: 0 <= j < |lines| ==> lines[j].product != product
  {
    FindFirst(lines, (l: CartLine) => l.product == product)
  }

  /** The index of the cart line with the id (`Cart.objects.get(id=..., user=...)`). */
  function FindLine(lines: seq<CartLine>, id: int): (r: Option<nat>)
    ensures r.Some? ==> r.value < |lines| && lines[r.value].id == id
                        && forall j :: 0 <= j < r.value ==> lines[j].id != id
    ensures r.None? ==> forall j :: 0 <= j < |lines| ==> lines[j].id != id
  {
    FindFirst(lines, (l: CartLine) => l.id == id)
  }

  /** What a line adds to the carted quantity of a product. */
  function Share(line: CartLine, product: ProductId): int {
    if line.product == product then line.quantity else 0
  }

  lemma QtyOfSingle(line: CartLine, product: ProductId)
    ensures QtyOf([line], product) == Share(line, product)
  {
    assert [line][..0] == [];
  }

  lemma QtyOfReplace(lines: seq<CartLine>, i: nat, line: CartLine, product: ProductId)
    requires i < |lines|
    ensures QtyOf(lines[i := line], product) == QtyOf(lines, product) - Share(lines[i], product) + Share(line, product)
  {
    assert lines == lines[..i] + [lines[i]] + lines[i + 1..];
    assert lines[i := line] == lines[..i] + [line] + lines[i + 1..];
    QtyOfConcat(lines[..i] + [lines[i]], lines[i + 1..], product);
    QtyOfConcat(lines[..i], [lines[i]], product);
    QtyOfConcat(lines[..i] + [line], lines[i + 1..], product);
    QtyOfConcat(lines[..i], [line], product);
    QtyOfSingle(lines[i], product);
    QtyOfSingle(line, product);
  }

  lemma QtyOfRemove(lines: seq<CartLine>, i: nat, product: ProductId)
    requires i < |lines|
    ensures QtyOf(lines[..i] + lines[i + 1..], product) == QtyOf(lines, product) - Share(lines[i], product)
  {
    assert lines == lines[..i] + [lines[i]] + lines[i + 1..];
    QtyOfConcat(lines[..i] + [lines[i]], lines[i + 1..], product);
    QtyOfConcat(lines[..i], [lines[i]], product);
    QtyOfConcat(lines[..i], lines[i + 1..], product);
    QtyOfSingle(lines[i], product);
  }

  lemma QtyOfReplaceAll(lines: seq<CartLine>, i: nat, line: CartLine)
    requires i < |lines|
    ensures forall p {:trigger QtyOf(lines[i := line], p)} ::
      QtyOf(lines[i := line], p) == QtyOf(lines, p) - Share(lines[i], p) + Share(line, p)
  {
    forall p {
      QtyOfReplace(lines, i, line, p);
    }
  }

  lemma QtyOfAppendAll(lines: seq<CartLine>, line: CartLine)
    ensures forall p {:trigger QtyOf(lines + [line], p)} :: QtyOf(lines + [line], p) == QtyOf(lines, p) + Share(line, p)
  {
    forall p {
      QtyOfAppend(lines, line, p);
    }
  }

  lemma QtyOfRemoveAll(lines: seq<CartLine>, i: nat)
    requires i < |lines|
    ensures forall p {:trigger QtyOf(lines[..i] + lines[i + 1..], p)} ::
      QtyOf(lines[..i] + lines[i + 1..], p) == QtyOf(lines, p) - Share(lines[i], p)
  {
    forall p {
      QtyOfRemove(lines, i, p);
    }
  }

  lemma QtyOfAppend(lines: seq<CartLine>, line: CartLine, product: ProductId)
    ensures QtyOf(lines + [line], product) == QtyOf(lines, product) + Share(line, product)
  {
    assert (lines + [line])[..|lines|] == lines;
  }

  /** Prices fit their `numeric(10, 2)` column (negative ones included), each
      pickup point is listed once, and every stock row belongs to a catalogue
      product and a listed point and is non-negative. */
  predicate CatalogValid(products: map<ProductId, Product>, points: seq<PointId>, activePoints: set<PointId>, stock: Stock) {
    (forall p :: p in products ==> ValidProduct(products[p]))
    && DistinctPoints(points)
    && (forall pt :: pt in activePoints ==> pt in points)
    && (forall k :: k in stock ==> k.0 in products && k.1 in points && 0 <= stock[k] && IntFits(stock[k]))
  }

  predicate CartsValid(carts: map<UserId, seq<CartLine>>, products: map<ProductId, Product>, nextId: int) {
    0 < nextId && forall u :: u in carts ==> ValidCart(carts[u], products, nextId)
  }

  /** Stored orders are valid and their numbers unique. */
  predicate OrdersValid(orders: seq<Order>, products: map<ProductId, Product>, points: seq<PointId>) {
    (forall i :: 0 <= i < |orders| ==> ValidOrder(orders[i], products, points))
    && (forall i, j :: 0 <= i < j < |orders| ==> orders[i].number != orders[j].number)
  }

  /** No user has more reviews of a product than received items of it. */
  ghost predicate ReviewsBounded(orders: seq<Order>, reviews: seq<Review>) {
    forall u, p :: ReviewCount(reviews, u, p) <= ReceivedItemCount(orders, u, p)
  }

  /** Storing an order placed from a stocked cart, taking the cart from the
      point's stock and emptying the cart keep the shop state valid. */
  lemma CommitValid(products: map<ProductId, Product>, points: seq<PointId>, activePoints: set<PointId>,
                    stock: Stock, carts: map<UserId, seq<CartLine>>, nextId: int,
                    orders: seq<Order>, reviews: seq<Review>, user: UserId, cart: seq<CartLine>, order: Order)
    requires CatalogValid(products, points, activePoints, stock) && CartsValid(carts, products, nextId)
    requires OrdersValid(orders, products, points) && ReviewsBounded(orders, reviews)
    requires ValidCart(cart, products, nextId)
    requires order.point in points && OrderRowFits(orders, order.number, order.contact, order.total)
    requires order.status == DefaultStatus && order.items == ItemsOf(cart, products)
    requires order.total == ItemsTotal(order.items)
    requires FirstShortage(stock, cart, order.point).None?
    ensures CatalogValid(products, points, activePoints, ReservedStock(stock, cart, order.point))
    ensures CartsValid(carts[user := []], products, nextId)
    ensures OrdersValid(orders + [order], products, points)
    ensures ReviewsBounded(orders + [order], reviews)
  {
    ReservedStockBounds(stock, cart, order.point);
    OrdersValidAppend(orders, products, points, cart, order);
    ReviewsBoundedAfterOrder(orders, reviews, order);
    CartsValidUpdate(carts, products, nextId, nextId, user, []);
  }

  lemma CartsValidUpdate(carts: map<UserId, seq<CartLine>>, products: map<ProductId, Product>, nextId: int, nextId': int, user: UserId, lines: seq<CartLine>)
    requires CartsValid(carts, products, nextId) && nextId <= nextId'
    requires ValidCart(lines, products, nextId')
    ensures CartsValid(carts[user := lines], products, nextId')
  {
  }

  lemma ValidCartReplace(lines: seq<CartLine>, products: map<ProductId, Product>, nextId: int, i: nat, line: CartLine)
    requires ValidCart(lines, products, nextId) && i < |lines|
    requires line.id == lines[i].id && line.product == lines[i].product && 1 <= line.quantity && IntFits(line.quantity)
    ensures ValidCart(lines[i := line], products, nextId)
  {
  }

  lemma ValidCartAppend(lines: seq<CartLine>, products: map<ProductId, Product>, nextId: int, line: CartLine)
    requires ValidCart(lines, products, nextId)
    requires 0 < nextId && line.id == nextId && line.product in products && 1 <= line.quantity && IntFits(line.quantity)
    requires forall j :: 0 <= j < |lines| ==> lines[j].product != line.product
    ensures ValidCart(lines + [line], products, nextId + 1)
  {
    assert forall i :: 0 <= i < |lines| ==> (lines + [line])[i] == lines[i];
  }

  lemma ValidCartRemove(lines: seq<CartLine>, products: map<ProductId, Product>, nextId: int, i: nat)
    requires ValidCart(lines, products, nextId) && i < |lines|
    ensures ValidCart(lines[..i] + lines[i + 1..], products, nextId)
  {
    var rest := lines[..i] + lines[i + 1..];
    assert forall j :: 0 <= j < |rest| ==> rest[j] == (if j < i then lines[j] else lines[j + 1]);
  }

  /** The cart after adding `q` of the product: its line grows, or a new line
      with id `nextId` is appended when there is none. */
  function CartWithAdded(lines: seq<CartLine>, product: ProductId, q: int, nextId: int): (r: (seq<CartLine>, CartLine))
    requires DistinctProducts(lines)
    ensures r.1.product == product && r.1.quantity == QtyOf(lines, product) + q
    ensures match FindProduct(lines, product)
            case Some(i) => r.0 == lines[i := r.1] && r.1.id == lines[i].id
            case None => r.0 == lines + [r.1] && r.1.id == nextId
    ensures forall p {:trigger QtyOf(r.0, p)} :: QtyOf(r.0, p) == QtyOf(lines, p) + (if p == product then q else 0)
    ensures DistinctProducts(r.0)
  {
    match FindProduct(lines, product)
    case Some(i) =>
      QtyOfLine(lines, i);
      var line := lines[i].(quantity := lines[i].quantity + q);
      QtyOfReplaceAll(lines, i, line);
      assert forall j :: 0 <= j < |lines| ==> lines[i := line][j].product == lines[j].product;
      (lines[i := line], line)
    case None =>
      QtyOfAbsent(lines, product);
      var line := CartLine(nextId, product, q);
      QtyOfAppendAll(lines, line);
      assert forall j :: 0 <= j < |lines| ==> (lines + [line])[j] == lines[j];
      (lines + [line], line)
  }

  lemma CartWithAddedValid(lines: seq<CartLine>, products: map<ProductId, Product>, nextId: int, product: ProductId, q: int)
    requires ValidCart(lines, products, nextId) && 0 < nextId
    requires product in products && 1 <= q && IntFits(QtyOf(lines, product) + q)
    ensures ValidCart(CartWithAdded(lines, product, q, nextId).0, products,
                      if FindProduct(lines, product).Some? then nextId else nextId + 1)
  {
    var r := CartWithAdded(lines, product, q, nextId);
    match FindProduct(lines, product)
    case Some(i) =>
      QtyOfLine(lines, i);
      ValidCartReplace(lines, products, nextId, i, r.1);
    case None =>
      ValidCartAppend(lines, products, nextId, r.1);
  }

  /** The line's stock row at the point exists and holds at least its quantity. */
  predicate Reservable(stock: Stock, line: CartLine, point: PointId) {
    (line.product, point) in stock && line.quantity <= stock[(line.product, point)]
  }

  /** The first cart line that cannot be served from the point, if any. */
  function FirstShortage(stock: Stock, lines: seq<CartLine>, point: PointId): (r: Option<nat>)
    ensures r.Some? ==> r.value < |lines| && !Reservable(stock, lines[r.value], point)
                        && forall j :: 0 <= j < r.value ==> Reservable(stock, lines[j], point)
    ensures r.None? ==> forall j :: 0 <= j < |lines| ==> Reservable(stock, lines[j], point)
  {
    if lines == [] then None
    else if !Reservable(stock, lines[0], point) then Some(0)
    else
      match FirstShortage(stock, lines[1..], point)
      case None => None
      case Some(i) => Some(i + 1)
  }

  /** The error for a line that cannot be served: no stock row, or too little in it. */
  function ShortageError(stock: Stock, line: CartLine, point: PointId): OrderError {
    if (line.product, point) !in stock then StockMissing(line.product)
    else InsufficientStock(line.product, stock[(line.product, point)])
  }

  /** The stock after the cart is taken from the point: each of the point's rows
      drops by the carted quantity of its product. */
  function ReservedStock(stock: Stock, lines: seq<CartLine>, point: PointId): (s: Stock)
    ensures s.Keys == stock.Keys
    ensures forall k :: k in stock && k.1 != point ==> s[k] == stock[k]
  {
    map k | k in stock :: if k.1 == point then stock[k] - QtyOf(lines, k.0) else stock[k]
  }

  lemma ReservedStockStep(stock: Stock, lines: seq<CartLine>, i: nat, point: PointId)
    requires i < |lines| && (lines[i].product, point) in stock
    ensures var key := (lines[i].product, point);
      var before := ReservedStock(stock, lines[..i], point);
      ReservedStock(stock, lines[..i + 1], point) == before[key := before[key] - lines[i].quantity]
  {
    assert lines[..i + 1][..i] == lines[..i];
  }

  /** With one line per product and every line servable, each of the point's
      rows drops by exactly the carted quantity and stays non-negative. */
  lemma {:induction false} ReservedStockBounds(stock: Stock, lines: seq<CartLine>, point: PointId)
    requires NonNegative(stock) && DistinctProducts(lines)
    requires forall i :: 0 <= i < |lines| ==> lines[i].quantity >= 0
    requires FirstShortage(stock, lines, point).None?
    ensures forall k :: k in stock ==> 0 <= ReservedStock(stock, lines, point)[k] <= stock[k]
    ensures forall i :: 0 <= i < |lines| ==>
      ReservedStock(stock, lines, point)[(lines[i].product, point)] == stock[(lines[i].product, point)] - lines[i].quantity
  {
    var s := ReservedStock(stock, lines, point);
    forall k | k in stock
      ensures 0 <= s[k] <= stock[k]
    {
      if k.1 == point {
        match FindProduct(lines, k.0)
        case Some(i) => QtyOfLine(lines, i);
        case None => QtyOfAbsent(lines, k.0);
      }
    }
    forall i | 0 <= i < |lines|
      ensures s[(lines[i].product, point)] == stock[(lines[i].product, point)] - lines[i].quantity
    {
      QtyOfLine(lines, i);
    }
  }

  /** Taking the cart from one listed point lowers each product's summed stock by
      its carted quantity when the point has a row for it, and leaves it otherwise. */
  lemma {:induction false} ReservedTotalStock(stock: Stock, points: seq<PointId>, lines: seq<CartLine>, point: PointId, product: ProductId)
    requires DistinctPoints(points)
    ensures TotalStock(ReservedStock(stock, lines, point), points, product)
            == TotalStock(stock, points, product) - (if point in points && (product, point) in stock then QtyOf(lines, product) else 0)
  {
    if points != [] {
      var n := |points|;
      var init := points[..n - 1];
      ReservedTotalStock(stock, init, lines, point, product);
      if points[n - 1] == point {
        assert point !in init;
      } else {
        assert point in points <==> point in init;
      }
    }
  }

  /** What `CreateOrderAPIView.post` answers once the cart is non-empty and the
      pickup point exists: the order row is inserted first, then each line is
      served from the point, then the mail is sent. */
  function ApiPlacement(orders: seq<Order>, stock: Stock, products: map<ProductId, Product>, cart: seq<CartLine>,
                        user: UserId, point: PointId, contact: Contact, number: string, mailOk: bool): (r: Result<Order, OrderError>)
    requires LinesInCatalog(cart, products)
    ensures !OrderRowFits(orders, number, contact, CartTotal(cart, products)) ==> r == Err(PersistenceFailure)
    ensures OrderRowFits(orders, number, contact, CartTotal(cart, products)) && FirstShortage(stock, cart, point).Some? ==>
              r == Err(ShortageError(stock, cart[FirstShortage(stock, cart, point).value], point))
    ensures r.Ok? <==> OrderRowFits(orders, number, contact, CartTotal(cart, products))
                       && FirstShortage(stock, cart, point).None? && mailOk
    ensures OrderRowFits(orders, number, contact, CartTotal(cart, products)) && FirstShortage(stock, cart, point).None? && !mailOk ==>
              r == Err(MailFailure)
    ensures r.Ok? ==> r.value.status == DefaultStatus && r.value.items == ItemsOf(cart, products)
                      && r.value.total == ItemsTotal(r.value.items) && r.value.point == point
                      && r.value.number == number && r.value.user == user && r.value.contact == contact
  {
    var total := CartTotal(cart, products);
    CartTotalIsItemsTotal(cart, products);
    if !OrderRowFits(orders, number, contact, total) then Err(PersistenceFailure)
    else match FirstShortage(stock, cart, point)
      case Some(i) => Err(ShortageError(stock, cart[i], point))
      case None =>
        if !mailOk then Err(MailFailure)
        else Ok(Order(number, user, point, DefaultStatus, total, contact, ItemsOf(cart, products)))
  }

  /** What `checkout` answers on a POST once the cart is non-empty: the form is
      validated, then the order is placed from the cleaned form. */
  function FormPlacement(orders: seq<Order>, stock: Stock, products: map<ProductId, Product>, activePoints: set<PointId>,
                         cart: seq<CartLine>, user: UserId, form: Forms.OrderFormData, emailValid: string -> bool,
                         number: string, mailOk: bool): (r: Result<Order, OrderError>)
    requires LinesInCatalog(cart, products)
    ensures Forms.CleanOrderForm(form, activePoints, emailValid).Err? ==>
              r == Err(InvalidForm(Forms.CleanOrderForm(form, activePoints, emailValid).error))
    ensures Forms.CleanOrderForm(form, activePoints, emailValid).Ok? ==>
              r == CleanedPlacement(orders, stock, products, cart, user, Forms.CleanOrderForm(form, activePoints, emailValid).value, number, mailOk)
    ensures r.Ok? ==> r.value.status == DefaultStatus && r.value.items == ItemsOf(cart, products)
                      && r.value.total == ItemsTotal(r.value.items) && r.value.point in activePoints
  {
    var cleaned := Forms.CleanOrderForm(form, activePoints, emailValid);
    if cleaned.Err? then Err(InvalidForm(cleaned.error))
    else CleanedPlacement(orders, stock, products, cart, user, cleaned.value, number, mailOk)
  }

  /** The contact columns of an order placed from a cleaned form. */
  function FormContact(f: Forms.OrderFormClean): Contact {
    Contact(Some(f.firstName), Some(f.lastName), Some(f.email), Some(f.phone))
  }

  /** The order placed from a cleaned form: every line is checked against the
      chosen point, then the order row is inserted with the accumulated total,
      then the mail is sent. */
  function CleanedPlacement(orders: seq<Order>, stock: Stock, products: map<ProductId, Product>,
                            cart: seq<CartLine>, user: UserId, f: Forms.OrderFormClean,
                            number: string, mailOk: bool): (r: Result<Order, OrderError>)
    requires LinesInCatalog(cart, products)
    ensures FirstShortage(stock, cart, f.pickupPoint).Some? ==>
              r == Err(ShortageError(stock, cart[FirstShortage(stock, cart, f.pickupPoint).value], f.pickupPoint))
    ensures r.Ok? <==> FirstShortage(stock, cart, f.pickupPoint).None? && mailOk
                       && OrderRowFits(orders, number, FormContact(f), CartTotal(cart, products))
    ensures FirstShortage(stock, cart, f.pickupPoint).None? && !OrderRowFits(orders, number, FormContact(f), CartTotal(cart, products)) ==>
              r == Err(PersistenceFailure)
    ensures FirstShortage(stock, cart, f.pickupPoint).None? && OrderRowFits(orders, number, FormContact(f), CartTotal(cart, products)) && !mailOk ==>
              r == Err(MailFailure)
    ensures r.Ok? ==> r.value.status == DefaultStatus && r.value.items == ItemsOf(cart, products)
                      && r.value.total == ItemsTotal(r.value.items) && r.value.point == f.pickupPoint
                      && r.value.contact == FormContact(f) && r.value.number == number && r.value.user == user
  {
    var shortage := FirstShortage(stock, cart, f.pickupPoint);
    if shortage.Some? then Err(ShortageError(stock, cart[shortage.value], f.pickupPoint))
    else
      var contact := FormContact(f);
      var total := CartTotal(cart, products);
      CartTotalIsItemsTotal(cart, products);
      if !OrderRowFits(orders, number, contact, total) then Err(PersistenceFailure)
      else if !mailOk then Err(MailFailure)
      else Ok(Order(number, user, f.pickupPoint, DefaultStatus, total, contact, ItemsOf(cart, products)))
  }

  lemma OrdersValidAppend(orders: seq<Order>, products: map<ProductId, Product>, points: seq<PointId>, cart: seq<CartLine>, o: Order)
    requires OrdersValid(orders, products, points)
    requires forall p :: p in products ==> ValidProduct(products[p])
    requires forall i :: 0 <= i < |cart| ==> cart[i].product in products && 1 <= cart[i].quantity && IntFits(cart[i].quantity)
    requires o.point in points && OrderRowFits(orders, o.number, o.contact, o.total)
    requires o.items == ItemsOf(cart, products) && o.total == ItemsTotal(o.items)
    ensures OrdersValid(orders + [o], products, points)
  {
    assert ValidOrder(o, products, points);
    assert forall i :: 0 <= i < |orders| ==> (orders + [o])[i] == orders[i];
  }

  lemma ReviewsBoundedAfterOrder(orders: seq<Order>, reviews: seq<Review>, o: Order)
    requires ReviewsBounded(orders, reviews) && o.status != Received
    ensures ReviewsBounded(orders + [o], reviews)
  {
    forall u, p
      ensures ReviewCount(reviews, u, p) <= ReceivedItemCount(orders + [o], u, p)
    {
      ReceivedItemCountAppend(orders, o, u, p);
    }
  }

  lemma ReviewsBoundedAfterReview(orders: seq<Order>, reviews: seq<Review>, r: Review)
    requires ReviewsBounded(orders, reviews)
    requires ReviewCount(reviews, r.user, r.product) < ReceivedItemCount(orders, r.user, r.product)
    ensures ReviewsBounded(orders, reviews + [r])
  {
    forall u, p
      ensures ReviewCount(reviews + [r], u, p) <= ReceivedItemCount(orders, u, p)
    {
      ReviewCountAppend(reviews, r, u, p);
    }
  }

  /** The item-creating loop of `CreateOrderAPIView.post`: for each line an
      order item at the current price, then the line's stock row at the point is
      looked up, checked and decremented; the first line without a row or with
      too little stops the loop. */
  method ServeLines(stock: Stock, products: map<ProductId, Product>, cart: seq<CartLine>, point: PointId)
    returns (r: Result<(seq<OrderItem>, Stock), OrderError>)
    requires LinesInCatalog(cart, products) && DistinctProducts(cart)
    ensures FirstShortage(stock, cart, point).Some? ==>
      r == Err(ShortageError(stock, cart[FirstShortage(stock, cart, point).value], point))
    ensures FirstShortage(stock, cart, point).None? ==>
      r == Ok((ItemsOf(cart, products), ReservedStock(stock, cart, point)))
  {
    var items: seq<OrderItem> := [];
    var newStock := stock;
    var i := 0;
    while i < |cart|
      invariant 0 <= i <= |cart|
      invariant items == ItemsOf(cart[..i], products)
      invariant forall j :: 0 <= j < i ==> Reservable(stock, cart[j], point)
      invariant newStock == ReservedStock(stock, cart[..i], point)
    {
      var line := cart[i];
      assert ItemsOf(cart[..i + 1], products) == items + [ItemOf(line, products)];
      items := items + [ItemOf(line, products)];
      var key := (line.product, point);
      QtyOfAbsent(cart[..i], line.product);
      if key !in newStock {
        return Err(StockMissing(line.product));
      }
      if newStock[key] < line.quantity {
        return Err(InsufficientStock(line.product, newStock[key]));
      }
      ReservedStockStep(stock, cart, i, point);
      newStock := newStock[key := newStock[key] - line.quantity];
      i := i + 1;
    }
    assert cart[..|cart|] == cart;
    return Ok((items, newStock));
  }

  /** The validation loop of `checkout`: the error for the first line whose
      stock row at the point is missing or smaller than its quantity. */
  method CheckStock(stock: Stock, cart: seq<CartLine>, point: PointId) returns (r: Option<OrderError>)
    ensures FirstShortage(stock, cart, point).Some? ==>
      r == Some(ShortageError(stock, cart[FirstShortage(stock, cart, point).value], point))
    ensures FirstShortage(stock, cart, point).None? ==> r == None
  {
    var i := 0;
    while i < |cart|
      invariant 0 <= i <= |cart|
      invariant forall j :: 0 <= j < i ==> Reservable(stock, cart[j], point)
    {
      var key := (cart[i].product, point);
      if key !in stock {
        return Some(StockMissing(cart[i].product));
      }
      if cart[i].quantity > stock[key] {
        return Some(InsufficientStock(cart[i].product, stock[key]));
      }
      i := i + 1;
    }
    return None;
  }

  /** The creation loop of `checkout`: an order item per line at the current
      price, the running total of quantity times price, and each line's stock
      row at the point decremented. */
  method CreateItems(stock: Stock, products: map<ProductId, Product>, cart: seq<CartLine>, point: PointId)
    returns (items: seq<OrderItem>, total: int, newStock: Stock)
    requires LinesInCatalog(cart, products)
    requires forall i :: 0 <= i < |cart| ==> (cart[i].product, point) in stock
    ensures items == ItemsOf(cart, products)
    ensures total == CartTotal(cart, products) == ItemsTotal(items)
    ensures newStock == ReservedStock(stock, cart, point)
  {
    items := [];
    total := 0;
    newStock := stock;
    var i := 0;
    while i < |cart|
      invariant 0 <= i <= |cart|
      invariant items == ItemsOf(cart[..i], products)
      invariant total == CartTotal(cart[..i], products)
      invariant newStock == ReservedStock(stock, cart[..i], point)
    {
      var line := cart[i];
      assert cart[..i + 1][..i] == cart[..i];
      assert ItemsOf(cart[..i + 1], products) == items + [ItemOf(line, products)];
      items := items + [ItemOf(line, products)];
      total := total + line.quantity * products[line.product].price;
      var key := (line.product, point);
      ReservedStockStep(stock, cart, i, point);
      newStock := newStock[key := newStock[key] - line.quantity];
      i := i + 1;
    }
    assert cart[..|cart|] == cart;
    CartTotalIsItemsTotal(cart, products);
  }

  class Shop {
    /** `Product` rows (only price and the active flag matter here). */
    var products: map<ProductId, Product>
    /** `PickupPoint` ids, each once. */
    var points: seq<PointId>
    /** The pickup points with `is_active` set. */
    var activePoints: set<PointId>
    /** `ProductStock` rows, one per (product, point). */
    var stock: Stock
    /** Each user's `Cart` rows. */
    var carts: map<UserId, seq<CartLine>>
    /** The id the next new cart row receives. */
    var nextCartId: int
    /** `Order` rows with their items; the order with id k is `orders[k - 1]`. */
    var orders: seq<Order>
    /** `Review` rows. */
    var reviews: seq<Review>

    ghost predicate Valid()
      reads this
    {
      CatalogValid(products, points, activePoints, stock)
      && CartsValid(carts, products, nextCartId)
      && OrdersValid(orders, products, points)
      && ReviewsBounded(orders, reviews)
    }

    /** A shop with its catalogue, pickup points and stock, and no carts, orders or reviews. */
    constructor (products: map<ProductId, Product>, points: seq<PointId>, activePoints: set<PointId>, stock: Stock)
      requires forall p :: p in products ==> ValidProduct(products[p])
      requires DistinctPoints(points)
      requires forall pt :: pt in activePoints ==> pt in points
      requires forall k :: k in stock ==> k.0 in products && k.1 in points && 0 <= stock[k] && IntFits(stock[k])
      ensures Valid()
      ensures this.products == products && this.points == points && this.activePoints == activePoints && this.stock == stock
      ensures carts == map[] && orders == [] && reviews == []
    {
      this.products := products;
      this.points := points;
      this.activePoints := activePoints;
      this.stock := stock;
      carts := map[];
      nextCartId := 1;
      orders := [];
      reviews := [];
    }

    function CartOf(user: UserId): seq<CartLine>
      reads this
    {
      if user in carts then carts[user] else []
    }

    predicate IsActiveProduct(product: ProductId)
      reads this
    {
      product in products && products[product].active
    }

    /** `Cart.get_stock` of the product: its stock summed over every pickup point. */
    function SummedStock(product: ProductId): int
      reads this
    {
      TotalStock(stock, points, product)
    }

    lemma CartFacts(user: UserId)
      requires CartsValid(carts, products, nextCartId)
      ensures ValidCart(CartOf(user), products, nextCartId)
      ensures DistinctProducts(CartOf(user)) && LinesInCatalog(CartOf(user), products)
    {
    }

    /** `AddToCartAPIView.post`: the product must be active, the quantity valid,
        and the requested plus the already carted quantity must not exceed the
        stock summed over all points. The line for the product grows, or one
        new line is created. A missing or inactive product is a `ServerError`:
        `get_object_or_404` raises `Http404` inside the view's `try`, whose
        `except Exception` answers 500. */
    method AddToCart(user: UserId, productId: ProductId, quantity: Option<int>) returns (r: Result<CartLine, CartError>)
      requires Valid()
      modifies this
      ensures Valid()
      ensures r.Err? ==> unchanged(this)
      ensures !old(IsActiveProduct(productId)) ==> r == Err(ServerError)
      ensures old(IsActiveProduct(productId)) && Serializers.ValidateCartQuantity(quantity).Err? ==> r == Err(InvalidQuantity)
      ensures old(IsActiveProduct(productId)) && Serializers.ValidateCartQuantity(quantity).Ok? ==>
        var carted := old(QtyOf(CartOf(user), productId));
        var total := old(SummedStock(productId));
        (quantity.value + carted > total ==> r == Err(ExceedsStock(total - carted)))
        && (quantity.value + carted <= total && !IntFits(quantity.value + carted) ==> r == Err(ServerError))
        && (quantity.value + carted <= total && IntFits(quantity.value + carted) ==> r.Ok?)
      ensures r.Ok? ==> quantity.Some? && (CartOf(user), r.value) == old(CartWithAdded(CartOf(user), productId, quantity.value, nextCartId))
      ensures r.Ok? ==> carts == old(carts)[user := CartOf(user)]
      ensures products == old(products) && points == old(points) && activePoints == old(activePoints)
      ensures stock == old(stock) && orders == old(orders) && reviews == old(reviews)
    {
      if !IsActiveProduct(productId) {
        return Err(ServerError);
      }
      var valid := Serializers.ValidateCartQuantity(quantity);
      if valid.Err? {
        return Err(InvalidQuantity);
      }
      var q := valid.value;
      var total := TotalStock(stock, points, productId);
      var lines := CartOf(user);
      CartFacts(user);
      var found := FindProduct(lines, productId);
      var existing := if found.Some? then lines[found.value].quantity else 0;
      if found.Some? {
        QtyOfLine(lines, found.value);
      } else {
        QtyOfAbsent(lines, productId);
      }
      if q + existing > total {
        return Err(ExceedsStock(total - existing));
      }
      if !IntFits(q + existing) {
        return Err(ServerError);
      }
      var line := StoreAdded(user, productId, q);
      r := Ok(line);
    }

    /** The cart update of `AddToCartAPIView.post` once the checks passed:
        the user's cart becomes the cart with the quantity added. */
    method StoreAdded(user: UserId, productId: ProductId, q: int) returns (line: CartLine)
      requires Valid()
      requires productId in products && 1 <= q && IntFits(QtyOf(CartOf(user), productId) + q)
      modifies this
      ensures Valid()
      ensures (CartOf(user), line) == old(CartWithAdded(CartOf(user), productId, q, nextCartId))
      ensures carts == old(carts)[user := CartOf(user)]
      ensures products == old(products) && points == old(points) && activePoints == old(activePoints)
      ensures stock == old(stock) && orders == old(orders) && reviews == old(reviews)
    {
      var lines := CartOf(user);
      CartFacts(user);
      var added := CartWithAdded(lines, productId, q, nextCartId);
      CartWithAddedValid(lines, products, nextCartId, productId, q);
      var nextId := if FindProduct(lines, productId).Some? then nextCartId else nextCartId + 1;
      CartsValidUpdate(carts, products, nextCartId, nextId, user, added.0);
      carts := carts[user := added.0];
      nextCartId := nextId;
      line := added.1;
    }

    /** `UpdateCartAPIView.post`: the quantity (1 when absent) must be at least 1
        and at most the stock summed over all points; the line then holds exactly
        that quantity. */
    method UpdateCart(user: UserId, itemId: int, quantity: Option<int>) returns (r: Result<CartLine, CartError>)
      requires Valid()
      modifies this
      ensures Valid()
      ensures r.Err? ==> unchanged(this)
      ensures old(FindLine(CartOf(user), itemId)).None? ==> r == Err(LineNotFound)
      ensures old(FindLine(CartOf(user), itemId)).Some? ==>
        var i := old(FindLine(CartOf(user), itemId)).value;
        var line := old(CartOf(user))[i];
        var q := if quantity.Some? then quantity.value else 1;
        var total := old(SummedStock(line.product));
        (q < 1 ==> r == Err(InvalidQuantity))
        && (1 <= q && q > total ==> r == Err(ExceedsStock(total)))
        && (1 <= q <= total && !IntFits(q) ==> r == Err(ServerError))
        && (1 <= q <= total && IntFits(q) ==>
              r == Ok(line.(quantity := q)) && CartOf(user) == old(CartOf(user))[i := line.(quantity := q)])
      ensures r.Ok? ==> carts == old(carts)[user := CartOf(user)] && nextCartId == old(nextCartId)
      ensures products == old(products) && points == old(points) && activePoints == old(activePoints)
      ensures stock == old(stock) && orders == old(orders) && reviews == old(reviews)
    {
      var lines := CartOf(user);
      CartFacts(user);
      var found := FindLine(lines, itemId);
      if found.None? {
        return Err(LineNotFound);
      }
      var i := found.value;
      var q := if quantity.Some? then quantity.value else 1;
      if q < 1 {
        return Err(InvalidQuantity);
      }
      var total := TotalStock(stock, points, lines[i].product);
      if q > total {
        return Err(ExceedsStock(total));
      }
      if !IntFits(q) {
        return Err(ServerError);
      }
      var line := lines[i].(quantity := q);
      ValidCartReplace(lines, products, nextCartId, i, line);
      CartsValidUpdate(carts, products, nextCartId, nextCartId, user, lines[i := line]);
      carts := carts[user := lines[i := line]];
      r := Ok(line);
    }

    /** `RemoveFromCartAPIView.delete`: the user's line with the id is deleted. */
    method RemoveFromCart(user: UserId, itemId: int) returns (r: Result<CartLine, CartError>)
      requires Valid()
      modifies this
      ensures Valid()
      ensures r.Err? ==> unchanged(this)
      ensures old(FindLine(CartOf(user), itemId)).None? <==> r == Err(LineNotFound)
      ensures r.Ok? ==>
        var i := old(FindLine(CartOf(user), itemId)).value;
        r.value == old(CartOf(user))[i]
        && CartOf(user) == old(CartOf(user))[..i] + old(CartOf(user))[i + 1..]
        && QtyOf(CartOf(user), r.value.product) == 0
        && (forall p :: p != r.value.product ==> QtyOf(CartOf(user), p) == old(QtyOf(CartOf(user), p)))
      ensures r.Ok? ==> carts == old(carts)[user := CartOf(user)] && nextCartId == old(nextCartId)
      ensures products == old(products) && points == old(points) && activePoints == old(activePoints)
      ensures stock == old(stock) && orders == old(orders) && reviews == old(reviews)
    {
      var lines := CartOf(user);
      CartFacts(user);
      var found := FindLine(lines, itemId);
      if found.None? {
        return Err(LineNotFound);
      }
      var i := found.value;
      var rest := lines[..i] + lines[i + 1..];
      QtyOfRemoveAll(lines, i);
      QtyOfLine(lines, i);
      ValidCartRemove(lines, products, nextCartId, i);
      CartsValidUpdate(carts, products, nextCartId, nextCartId, user, rest);
      carts := carts[user := rest];
      r := Ok(lines[i]);
    }

    /** The commit shared by both order placements: the order is stored, the
        cart is taken from the point's stock and the user's cart is emptied. */
    method CommitOrder(user: UserId, order: Order)
      requires Valid()
      requires LinesInCatalog(CartOf(user), products)
      requires order.point in points && OrderRowFits(orders, order.number, order.contact, order.total)
      requires order.status == DefaultStatus && order.items == ItemsOf(CartOf(user), products)
      requires order.total == ItemsTotal(order.items)
      requires FirstShortage(stock, CartOf(user), order.point).None?
      modifies this
      ensures Valid()
      ensures orders == old(orders) + [order]
      ensures stock == old(ReservedStock(stock, CartOf(user), order.point))
      ensures carts == old(carts)[user := []]
      ensures products == old(products) && points == old(points) && activePoints == old(activePoints)
      ensures reviews == old(reviews) && nextCartId == old(nextCartId)
    {
      var cart := CartOf(user);
      CartFacts(user);
      CommitValid(products, points, activePoints, stock, carts, nextCartId, orders, reviews, user, cart, order);
      orders, stock, carts := orders + [order], ReservedStock(stock, cart, order.point), carts[user := []];
    }

    /** `CreateOrderAPIView.post` with the request's `pickup_point` (None when
        absent or false), its contact fields, the generated order number and
        whether the confirmation mail goes out. */
    method PlaceOrder(user: UserId, pickupPoint: Option<PointId>, contact: Contact, number: string, mailOk: bool)
      returns (r: Result<Order, OrderError>)
      requires Valid()
      modifies this
      ensures Valid()
      ensures r.Err? ==> unchanged(this)
      ensures old(CartOf(user)) == [] ==> r == Err(EmptyCart)
      ensures old(CartOf(user)) != [] && pickupPoint.None? ==> r == Err(NoPickupPoint)
      ensures old(CartOf(user)) != [] && pickupPoint.Some? && pickupPoint.value !in old(points) ==> r == Err(PickupPointNotFound)
      ensures old(CartOf(user)) != [] && pickupPoint.Some? && pickupPoint.value in old(points) ==>
        r == old(ApiPlacement(orders, stock, products, CartOf(user), user, pickupPoint.value, contact, number, mailOk))
      ensures r.Ok? ==>
        orders == old(orders) + [r.value]
        && stock == old(ReservedStock(stock, CartOf(user), r.value.point))
        && carts == old(carts)[user := []]
      ensures products == old(products) && points == old(points) && activePoints == old(activePoints)
      ensures reviews == old(reviews) && nextCartId == old(nextCartId)
    {
      var cart := CartOf(user);
      if cart == [] {
        return Err(EmptyCart);
      }
      if pickupPoint.None? {
        return Err(NoPickupPoint);
      }
      var point := pickupPoint.value;
      if point !in points {
        return Err(PickupPointNotFound);
      }
      CartFacts(user);
      var total := CartTotal(cart, products);
      // Order.objects.create
      if !OrderRowFits(orders, number, contact, total) {
        return Err(PersistenceFailure);
      }
      var served := ServeLines(stock, products, cart, point);
      if served.Err? {
        return Err(served.error);
      }
      var (items, newStock) := served.value;
      // cart_items.delete(), then the mail inside the same transaction
      if !mailOk {
        return Err(MailFailure);
      }
      var order := Order(number, user, point, DefaultStatus, total, contact, items);
      CartTotalIsItemsTotal(cart, products);
      CommitOrder(user, order);
      r := Ok(order);
    }

    /** The POST branch of `checkout`: the order form, the validation loop over
        the cart, the order row, the creation loop that accumulates the total
        and decrements stock, the total saved on the order, the cart deleted and
        the mail sent, all in one transaction. */
    method Checkout(user: UserId, form: Forms.OrderFormData, emailValid: string -> bool, number: string, mailOk: bool)
      returns (r: Result<Order, OrderError>)
      requires Valid()
      modifies this
      ensures Valid()
      ensures r.Err? ==> unchanged(this)
      ensures old(CartOf(user)) == [] ==> r == Err(EmptyCart)
      ensures old(CartOf(user)) != [] ==>
        r == old(FormPlacement(orders, stock, products, activePoints, CartOf(user), user, form, emailValid, number, mailOk))
      ensures r.Ok? ==>
        orders == old(orders) + [r.value]
        && stock == old(ReservedStock(stock, CartOf(user), r.value.point))
        && carts == old(carts)[user := []]
      ensures products == old(products) && points == old(points) && activePoints == old(activePoints)
      ensures reviews == old(reviews) && nextCartId == old(nextCartId)
    {
      var cart := CartOf(user);
      if cart == [] {
        return Err(EmptyCart);
      }
      CartFacts(user);
      var cleaned := Forms.CleanOrderForm(form, activePoints, emailValid);
      if cleaned.Err? {
        return Err(InvalidForm(cleaned.error));
      }
      r := PlaceCleanedOrder(user, cleaned.value, number, mailOk);
    }

    /** The part of `checkout` after the form is valid: the validation loop
        over the cart, the order row, the creation loop that accumulates the
        total and decrements stock, the total saved on the order, the cart
        deleted and the mail sent. */
    method PlaceCleanedOrder(user: UserId, f: Forms.OrderFormClean, number: string, mailOk: bool)
      returns (r: Result<Order, OrderError>)
      requires Valid()
      requires f.pickupPoint in activePoints
      modifies this
      ensures Valid()
      ensures r.Err? ==> unchanged(this)
      ensures r == old(CleanedPlacement(orders, stock, products, CartOf(user), user, f, number, mailOk))
      ensures r.Ok? ==>
        orders == old(orders) + [r.value]
        && stock == old(ReservedStock(stock, CartOf(user), r.value.point))
        && carts == old(carts)[user := []]
      ensures products == old(products) && points == old(points) && activePoints == old(activePoints)
      ensures reviews == old(reviews) && nextCartId == old(nextCartId)
    {
      var cart := CartOf(user);
      CartFacts(user);
      var point := f.pickupPoint;
      var shortage := CheckStock(stock, cart, point);
      if shortage.Some? {
        return Err(shortage.value);
      }
      var contact := FormContact(f);
      // Order.objects.create with total_price=0
      if !OrderRowFits(orders, number, contact, 0) {
        return Err(PersistenceFailure);
      }
      var items, total, newStock := CreateItems(stock, products, cart, point);
      // order.total_price = total; order.save()
      if !MoneyFits(total) {
        return Err(PersistenceFailure);
      }
      if !mailOk {
        return Err(MailFailure);
      }
      var order := Order(number, user, point, DefaultStatus, total, contact, items);
      CartTotalIsItemsTotal(cart, products);
      CommitOrder(user, order);
      r := Ok(order);
    }

    /** The number of the user's received items of the product and of their reviews of it. */
    function ReviewAllowance(user: UserId, product: ProductId): (int, int)
      reads this
    {
      (ReceivedItemCount(orders, user, product), ReviewCount(reviews, user, product))
    }

    /** `CreateReviewAPIView.post`: the product must be active, the user must have
        received it, and strictly more often than they have reviewed it; the
        rating and text are then validated and the review stored. */
    method CreateReview(user: UserId, productId: ProductId, rating: Option<int>, text: Option<string>, created: int)
      returns (r: Result<Review, ReviewError>)
      requires Valid()
      modifies this
      ensures Valid()
      ensures r.Err? ==> unchanged(this)
      ensures !old(IsActiveProduct(productId)) ==> r == Err(ReviewProductNotFound)
      ensures old(IsActiveProduct(productId)) ==>
        var (received, existing) := old(ReviewAllowance(user, productId));
        (received == 0 ==> r == Err(NothingReceived))
        && (0 < received <= existing ==> r == Err(AllReviewsWritten))
        && (existing < received ==>
              match Serializers.ValidateReview(rating, text)
              case Err(e) => r == Err(InvalidReview(e))
              case Ok(v) => r == Ok(Review(user, productId, v.0, v.1, created)))
      ensures r.Ok? ==> reviews == old(reviews) + [r.value]
      ensures r.Ok? ==> ReviewCount(reviews, user, productId) == old(ReviewCount(reviews, user, productId)) + 1
                        <= ReceivedItemCount(orders, user, productId)
      ensures products == old(products) && points == old(points) && activePoints == old(activePoints)
      ensures stock == old(stock) && carts == old(carts) && orders == old(orders) && nextCartId == old(nextCartId)
    {
      if !IsActiveProduct(productId) {
        return Err(ReviewProductNotFound);
      }
      var received := ReceivedItemCount(orders, user, productId);
      var existing := ReviewCount(reviews, user, productId);
      if received == 0 {
        return Err(NothingReceived);
      }
      if existing >= received {
        return Err(AllReviewsWritten);
      }
      var valid := Serializers.ValidateReview(rating, text);
      if valid.Err? {
        return Err(InvalidReview(valid.error));
      }
      var review := Review(user, productId, valid.value.0, valid.value.1, created);
      ReviewCountAppend(reviews, review, user, productId);
      ReviewsBoundedAfterReview(orders, reviews, review);
      reviews := reviews + [review];
      r := Ok(review);
    }
  }
}
