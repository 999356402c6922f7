/** The records of the shop's database schema (petshop/models.py) that the
    ordering core reads and writes, and the two computed properties of a
    cart line. Money is in kopecks: every monetary column is
    `DecimalField(max_digits=10, decimal_places=2)`. */
module Models {
  import opened Wrappers

  type ProductId = int
  type PointId = int
  type UserId = int

  /** numeric(10, 2) holds values below 10^8 roubles in magnitude, i.e. 10^10 kopecks. */
  const MoneyLimit: int := 10_000_000_000

  predicate MoneyFits(x: int) {
    -MoneyLimit < x < MoneyLimit
  }

  /** The range of a PostgreSQL `integer` column (every quantity column). */
  predicate IntFits(x: int) {
    -0x8000_0000 <= x < 0x8000_0000
  }

  /** `Order.STATUS_CHOICES`. */
  datatype Status = Processing | InWork | Completed | Received

  /** The stored value of each status choice. */
  function StatusName(s: Status): string {
    match s
    case Processing => "В обработке"
    case InWork => "В работе"
    case Completed => "Завершён"
    case Received => "Получен"
  }

  /** The choices check on the status column: only the four names are accepted. */
  function ParseStatus(name: string): (r: Option<Status>)
    ensures r.Some? ==> StatusName(r.value) == name
  {
    if name == "В обработке" then Some(Processing)
    else if name == "В работе" then Some(InWork)
    else if name == "Завершён" then Some(Completed)
    else if name == "Получен" then Some(Received)
    else None
  }

  lemma StatusRoundTrip(s: Status)
    ensures ParseStatus(StatusName(s)) == Some(s)
  {
    match s
    case Processing =>
    case InWork =>
      assert "В работе" != "В обработке" by { assert "В работе"[3] != "В обработке"[3]; }
    case Completed =>
      assert "Завершён" != "В обработке" by { assert "Завершён"[0] != "В обработке"[0]; }
      assert "Завершён" != "В работе" by { assert "Завершён"[0] != "В работе"[0]; }
    case Received =>
      assert "Получен" != "В обработке" by { assert "Получен"[0] != "В обработке"[0]; }
      assert "Получен" != "В работе" by { assert "Получен"[0] != "В работе"[0]; }
      assert "Получен" != "Завершён" by { assert "Получен"[0] != "Завершён"[0]; }
  }

  /** The default of `Order.status`. */
  const DefaultStatus: Status := Processing

  /** A catalogue product: `Product.name`, `Product.price` (kopecks), `Product.is_active`. */
  datatype Product = Product(name: string, price: int, active: bool)

  /** The price fits its `numeric(10, 2)` column; it may be negative, since the
      column has no validator. */
  predicate ValidProduct(p: Product) {
    MoneyFits(p.price)
  }

  /** A `Cart` row of one user: its id, product and quantity. */
  datatype CartLine = CartLine(id: int, product: ProductId, quantity: int)

  /** The contact columns of `Order`, as the request supplied them (None = absent). */
  datatype Contact = Contact(firstName: Option<string>, lastName: Option<string>, email: Option<string>, phone: Option<string>)

  /** An `OrderItem` row: it stores its own price, copied from the product when the order is placed. */
  datatype OrderItem = OrderItem(product: ProductId, quantity: int, price: int)

  /** An `Order` row with its items. */
  datatype Order = Order(number: string, user: UserId, point: PointId, status: Status, total: int, contact: Contact, items: seq<OrderItem>)

  /** A `Review` row; `created` is its creation time. */
  datatype Review = Review(user: UserId, product: ProductId, rating: int, text: string, created: int)

  /** The `ProductStock` rows: quantity per (product, pickup point). */
  type Stock = map<(ProductId, PointId), int>

  /** The quantity of the stock row, 0 when there is none (what a sum over rows sees). */
  function StockAt(stock: Stock, product: ProductId, point: PointId): int {
    if (product, point) in stock then stock[(product, point)] else 0
  }

  /** `Cart.get_stock`: the product's stock summed over every pickup point. */
  function TotalStock(stock: Stock, points: seq<PointId>, product: ProductId): int
  {
    if points == [] then 0
    else TotalStock(stock, points[..|points| - 1], product) + StockAt(stock, product, points[|points| - 1])
  }

  predicate NonNegative(stock: Stock) {
    forall k :: k in stock ==> stock[k] >= 0
  }

  /** With no negative rows, one point's row never exceeds the summed stock. */
  lemma {:induction false} StockAtMostTotal(stock: Stock, points: seq<PointId>, product: ProductId, point: PointId)
    requires NonNegative(stock)
    requires point in points
    ensures 0 <= StockAt(stock, product, point) <= TotalStock(stock, points, product)
  {
    var n := |points|;
    TotalStockNonNegative(stock, points[..n - 1], product);
    if points[n - 1] != point {
      assert point in points[..n - 1] by {
        var i :| 0 <= i < n && points[i] == point;
        assert points[..n - 1][i] == point;
      }
      StockAtMostTotal(stock, points[..n - 1], product, point);
    }
  }

  lemma {:induction false} TotalStockNonNegative(stock: Stock, points: seq<PointId>, product: ProductId)
    requires NonNegative(stock)
    ensures TotalStock(stock, points, product) >= 0
  {
    if points != [] {
      TotalStockNonNegative(stock, points[..|points| - 1], product);
    }
  }

  /** Lowering one row by `q` lowers the summed stock by `q` in total, when each point is listed once. */
  lemma {:induction false} TotalStockAfterDecrement(stock: Stock, points: seq<PointId>, product: ProductId, point: PointId, q: int)
    requires (product, point) in stock
    requires forall i, j :: 0 <= i < j < |points| ==> points[i] != points[j]
    ensures var s' := stock[(product, point) := stock[(product, point)] - q];
      TotalStock(s', points, product) == TotalStock(stock, points, product) - (if point in points then q else 0)
  {
    var s' := stock[(product, point) := stock[(product, point)] - q];
    if points != [] {
      var n := |points|;
      var init := points[..n - 1];
      assert forall i, j :: 0 <= i < j < |init| ==> init[i] != init[j];
      TotalStockAfterDecrement(stock, init, product, point, q);
      if points[n - 1] == point {
        assert point !in init;
      } else {
        assert point in points <==> point in init;
      }
    }
  }

  /** Another product's rows do not contribute to a product's summed stock. */
  lemma {:induction false} TotalStockOtherProduct(stock: Stock, points: seq<PointId>, product: ProductId, other: ProductId, point: PointId, v: int)
    requires other != product
    ensures TotalStock(stock[(other, point) := v], points, product) == TotalStock(stock, points, product)
  {
    if points != [] {
      TotalStockOtherProduct(stock, points[..|points| - 1], product, other, point, v);
    }
  }

  /** `Cart.get_total_price` and `CartItemSerializer.get_total`: price times quantity. */
  function LineTotal(price: int, quantity: int): int {
    price * quantity
  }

  predicate LinesInCatalog(lines: seq<CartLine>, products: map<ProductId, Product>) {
    forall i :: 0 <= i < |lines| ==> lines[i].product in products
  }

  /** The sum of the line totals of a cart at the current prices. */
  function CartTotal(lines: seq<CartLine>, products: map<ProductId, Product>): int
    requires LinesInCatalog(lines, products)
  {
    if lines == [] then 0
    else
      var last := lines[|lines| - 1];
      CartTotal(lines[..|lines| - 1], products) + LineTotal(products[last.product].price, last.quantity)
  }

  /** The order item a cart line becomes: same product and quantity, the current price. */
  function ItemOf(line: CartLine, products: map<ProductId, Product>): OrderItem
    requires line.product in products
  {
    OrderItem(line.product, line.quantity, products[line.product].price)
  }

  function ItemsOf(lines: seq<CartLine>, products: map<ProductId, Product>): (items: seq<OrderItem>)
    requires LinesInCatalog(lines, products)
    ensures |items| == |lines|
    ensures forall i :: 0 <= i < |lines| ==> items[i] == ItemOf(lines[i], products)
  {
    seq(|lines|, i requires 0 <= i < |lines| => ItemOf(lines[i], products))
  }

  /** The sum of quantity times stored price over an order's items. */
  function ItemsTotal(items: seq<OrderItem>): int {
    if items == [] then 0
    else ItemsTotal(items[..|items| - 1]) + items[|items| - 1].quantity * items[|items| - 1].price
  }

  /** The cart total at ordering time is the total of the items the order stores. */
  lemma {:induction false} CartTotalIsItemsTotal(lines: seq<CartLine>, products: map<ProductId, Product>)
    requires LinesInCatalog(lines, products)
    ensures CartTotal(lines, products) == ItemsTotal(ItemsOf(lines, products))
  {
    if lines != [] {
      var n := |lines|;
      CartTotalIsItemsTotal(lines[..n - 1], products);
      assert ItemsOf(lines, products)[..n - 1] == ItemsOf(lines[..n - 1], products);
    }
  }

  /** The carted quantity of a product. */
  function QtyOf(lines: seq<CartLine>, product: ProductId): int {
    if lines == [] then 0
    else QtyOf(lines[..|lines| - 1], product) + (if lines[|lines| - 1].product == product then lines[|lines| - 1].quantity else 0)
  }

  lemma {:induction false} QtyOfConcat(a: seq<CartLine>, b: seq<CartLine>, product: ProductId)
    ensures QtyOf(a + b, product) == QtyOf(a, product) + QtyOf(b, product)
  {
    if b == [] {
      assert a + b == a;
    } else {
      var n := |b|;
      assert (a + b)[..|a + b| - 1] == a + b[..n - 1];
      QtyOfConcat(a, b[..n - 1], product);
    }
  }

  lemma {:induction false} QtyOfAbsent(lines: seq<CartLine>, product: ProductId)
    requires forall i :: 0 <= i < |lines| ==> lines[i].product != product
    ensures QtyOf(lines, product) == 0
  {
    if lines != [] {
      QtyOfAbsent(lines[..|lines| - 1], product);
    }
  }

  /** In a cart with one line per product, the carted quantity is that line's quantity. */
  lemma {:induction false} QtyOfLine(lines: seq<CartLine>, i: nat)
    requires i < |lines|
    requires forall a, b :: 0 <= a < b < |lines| ==> lines[a].product != lines[b].product
    ensures QtyOf(lines, lines[i].product) == lines[i].quantity
  {
    var n := |lines|;
    if i == n - 1 {
      QtyOfAbsent(lines[..n - 1], lines[i].product);
    } else {
      QtyOfLine(lines[..n - 1], i);
    }
  }

  /** The number of items for the product in one order. */
  function ItemCount(items: seq<OrderItem>, product: ProductId): nat {
    if items == [] then 0
    else ItemCount(items[..|items| - 1], product) + (if items[|items| - 1].product == product then 1 else 0)
  }

  /** `OrderItem.objects.filter(product=..., order__user=..., order__status='Получен').count()`. */
  function ReceivedItemCount(orders: seq<Order>, user: UserId, product: ProductId): nat {
    if orders == [] then 0
    else
      var o := orders[|orders| - 1];
      ReceivedItemCount(orders[..|orders| - 1], user, product)
        + (if o.user == user && o.status == Received then ItemCount(o.items, product) else 0)
  }

  lemma ReceivedItemCountAppend(orders: seq<Order>, o: Order, user: UserId, product: ProductId)
    ensures ReceivedItemCount(orders + [o], user, product)
            == ReceivedItemCount(orders, user, product) + (if o.user == user && o.status == Received then ItemCount(o.items, product) else 0)
  {
    assert (orders + [o])[..|orders|] == orders;
  }

  /** `Review.objects.filter(product=..., user=...).count()`. */
  function ReviewCount(reviews: seq<Review>, user: UserId, product: ProductId): nat {
    if reviews == [] then 0
    else
      ReviewCount(reviews[..|reviews| - 1], user, product)
        + (if reviews[|reviews| - 1].user == user && reviews[|reviews| - 1].product == product then 1 else 0)
  }

  lemma ReviewCountAppend(reviews: seq<Review>, r: Review, user: UserId, product: ProductId)
    ensures ReviewCount(reviews + [r], user, product)
            == ReviewCount(reviews, user, product) + (if r.user == user && r.product == product then 1 else 0)
  {
    assert (reviews + [r])[..|reviews|] == reviews;
  }
}
