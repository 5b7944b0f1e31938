/** The seller side of the marketplace: `SellerDashboardViewSet.withdraw` and
    `update_order` (markets/views.py) and `OrderCreateSerializer.create`
    (markets/serializers.py), over a store of seller wallets, their
    transactions, orders and order items. Amounts are in cents. */
module SellerDashboard {
  import opened Wrappers
  import opened Numeric
  import M = MarketModels
  import opened Serializers

  type Id = M.Id

  /* ---------------- records ---------------- */

  /** `Order.STATUS_CHOICES`. */
  datatype OrderStatus = Pending | Confirmed | Processing | Ready | Done | Cancelled

  function OrderStatusName(s: OrderStatus): string {
    match s
    case Pending => "pending"
    case Confirmed => "confirmed"
    case Processing => "processing"
    case Ready => "ready"
    case Done => "completed"
    case Cancelled => "cancelled"
  }

  function ParseOrderStatus(s: string): (r: Option<OrderStatus>)
    ensures r.Some? <==> s in ["pending", "confirmed", "processing", "ready", "completed", "cancelled"]
  {
    if s == "pending" then Some(Pending)
    else if s == "confirmed" then Some(Confirmed)
    else if s == "processing" then Some(Processing)
    else if s == "ready" then Some(Ready)
    else if s == "completed" then Some(Done)
    else if s == "cancelled" then Some(Cancelled)
    else None
  }

  lemma OrderStatusChoicesRoundTrip(st: OrderStatus, s: string)
    ensures ParseOrderStatus(OrderStatusName(st)) == Some(st)
    ensures ParseOrderStatus(s).Some? ==> OrderStatusName(ParseOrderStatus(s).value) == s
  {
  }

  datatype SellerWallet = SellerWallet(
    id: Id,
    sellerId: Id,
    balance: int,
    totalEarnings: int,
    bankName: Option<string>,
    accountName: Option<string>,
    accountNumber: Option<string>)

  datatype WalletTransactionType = OrderPayment | Withdrawal | Refund | Adjustment
  datatype WalletTransactionStatus = TransactionPending | TransactionCompleted | TransactionFailed

  datatype WalletTransaction = WalletTransaction(
    id: Id,
    walletId: Id,
    amount: int,
    kind: WalletTransactionType,
    status: WalletTransactionStatus,
    reference: Option<string>,
    description: Option<string>)

  datatype Product = Product(id: Id, sellerId: Id, name: string, description: string, price: int)

  datatype Order = Order(
    id: Id,
    buyerId: Id,
    sellerId: Id,
    status: OrderStatus,
    totalAmount: int,
    buyerNote: Option<string>,
    sellerNote: Option<string>)

  datatype OrderItem = OrderItem(
    id: Id,
    orderId: Id,
    productId: Option<Id>,
    quantity: nat,
    priceAtOrder: int,
    productName: string,
    productDescription: string)

  /** One entry of the `items` list of an order request. */
  datatype ItemRequest = ItemRequest(productId: Id, quantity: nat)

  /* ---------------- lookups ---------------- */

  /** `SellerWallet.objects.get(seller=...)`. */
  function WalletIndex(wallets: seq<SellerWallet>, sellerId: Id): (r: Option<nat>)
    ensures r.Some? ==> r.value < |wallets| && wallets[r.value].sellerId == sellerId
    ensures r.Some? ==> forall j :: 0 <= j < r.value ==> wallets[j].sellerId != sellerId
    ensures r.None? <==> forall k :: 0 <= k < |wallets| ==> wallets[k].sellerId != sellerId
  {
    if wallets == [] then None
    else
      var prev := WalletIndex(wallets[..|wallets| - 1], sellerId);
      if prev.None? && wallets[|wallets| - 1].sellerId == sellerId then Some(|wallets| - 1) else prev
  }

  /** `get_object_or_404(Order, pk=..., seller=...)`. */
  function OrderIndex(orders: seq<Order>, orderId: Id, sellerId: Id): (r: Option<nat>)
    ensures r.Some? ==> r.value < |orders| && orders[r.value].id == orderId && orders[r.value].sellerId == sellerId
    ensures r.None? <==> forall k :: 0 <= k < |orders| ==> !(orders[k].id == orderId && orders[k].sellerId == sellerId)
  {
    if orders == [] then None
    else
      var prev := OrderIndex(orders[..|orders| - 1], orderId, sellerId);
      var last := orders[|orders| - 1];
      if prev.None? && last.id == orderId && last.sellerId == sellerId then Some(|orders| - 1) else prev
  }

  /** `Product.objects.get(id=...)`. */
  function FindProduct(products: seq<Product>, id: Id): (r: Option<Product>)
    ensures r.Some? ==> r.value in products && r.value.id == id
    ensures r.None? <==> forall k :: 0 <= k < |products| ==> products[k].id != id
  {
    if products == [] then None
    else if products[0].id == id then Some(products[0])
    else FindProduct(products[1..], id)
  }

  /* ---------------- withdrawals ---------------- */

  predicate BankDetailsComplete(w: SellerWallet) {
    TruthyString(w.bankName) && TruthyString(w.accountNumber)
  }

  const IncompleteBankMessage := "Bank account details are not complete. Please update your profile."

  /** The pending withdrawal record `withdraw` creates. */
  function WithdrawalRecord(id: Id, walletId: Id, amount: nat): (t: WalletTransaction)
    ensures t.kind == Withdrawal && t.status == TransactionPending && t.amount == amount
  {
    WalletTransaction(id, walletId, amount, Withdrawal, TransactionPending, None,
                      Some("Withdrawal request of " + CentsText(amount)))
  }

  /** An accepted withdrawal never exceeds the balance, so a balance that
      was not negative stays so, and it strictly decreases. */
  lemma AcceptedWithdrawalKeepsBalance(amount: int, balance: int)
    ensures ValidateWithdrawAmount(amount, Some(balance)).Ok? ==>
              0 <= balance - amount < balance
    ensures ValidateWithdrawAmount(amount, None).Err?
  {
  }

  /* ---------------- order totals ---------------- */

  /** The sum of `price * quantity` over the requested items, at the
      products' current prices. */
  function RequestTotal(products: seq<Product>, items: seq<ItemRequest>): int
    requires forall j :: 0 <= j < |items| ==> FindProduct(products, items[j].productId).Some?
  {
    if items == [] then 0
    else
      var last := items[|items| - 1];
      RequestTotal(products, items[..|items| - 1])
        + FindProduct(products, last.productId).value.price * last.quantity
  }

  /** The order items `create` writes for the requested items, each a
      snapshot of its product. */
  function OrderLines(products: seq<Product>, items: seq<ItemRequest>, ids: seq<Id>, orderId: Id): (r: seq<OrderItem>)
    requires |ids| == |items|
    requires forall j :: 0 <= j < |items| ==> FindProduct(products, items[j].productId).Some?
    ensures |r| == |items|
  {
    if items == [] then []
    else
      var n := |items| - 1;
      var product := FindProduct(products, items[n].productId).value;
      OrderLines(products, items[..n], ids[..n], orderId)
        + [OrderItem(ids[n], orderId, Some(product.id), items[n].quantity, product.price,
                     product.name, product.description)]
  }

  /** `OrderItem.subtotal` summed over items. */
  function SubtotalSum(lines: seq<OrderItem>): int {
    if lines == [] then 0
    else SubtotalSum(lines[..|lines| - 1]) + lines[|lines| - 1].quantity * lines[|lines| - 1].priceAtOrder
  }

  /** The total of an order equals the sum of its items' subtotals, each
      item carrying its product's price at the time of the order. */
  lemma {:induction false} OrderTotalIsSumOfSubtotals(products: seq<Product>, items: seq<ItemRequest>,
                                                      ids: seq<Id>, orderId: Id)
    requires |ids| == |items|
    requires forall j :: 0 <= j < |items| ==> FindProduct(products, items[j].productId).Some?
    ensures SubtotalSum(OrderLines(products, items, ids, orderId)) == RequestTotal(products, items)
    ensures forall j :: 0 <= j < |items| ==>
              var line := OrderLines(products, items, ids, orderId)[j];
              && line.orderId == orderId && line.quantity == items[j].quantity
              && line.priceAtOrder == FindProduct(products, items[j].productId).value.price
  {
    if items != [] {
      var n := |items| - 1;
      OrderTotalIsSumOfSubtotals(products, items[..n], ids[..n], orderId);
      var prefix := OrderLines(products, items[..n], ids[..n], orderId);
      var product := FindProduct(products, items[n].productId).value;
      var last := OrderItem(ids[n], orderId, Some(product.id), items[n].quantity, product.price,
                            product.name, product.description);
      var lines := prefix + [last];
      assert OrderLines(products, items, ids, orderId) == lines;
      assert lines[..n] == prefix;
      assert SubtotalSum(lines) == SubtotalSum(prefix) + last.quantity * last.priceAtOrder;
      forall j | 0 <= j < |items|
        ensures lines[j].orderId == orderId && lines[j].quantity == items[j].quantity
        ensures lines[j].priceAtOrder == FindProduct(products, items[j].productId).value.price
      {
        if j < n {
          assert lines[j] == prefix[j] && items[..n][j] == items[j];
        }
      }
    }
  }

  /** One more requested item adds its price times quantity to the total
      and one snapshot line to the order items. */
  lemma LinesStep(products: seq<Product>, items: seq<ItemRequest>, ids: seq<Id>, orderId: Id, i: nat)
    requires i < |items| && |ids| == |items|
    requires forall j :: 0 <= j <= i ==> FindProduct(products, items[j].productId).Some?
    ensures var p := FindProduct(products, items[i].productId).value;
            && RequestTotal(products, items[..i + 1]) == RequestTotal(products, items[..i]) + p.price * items[i].quantity
            && OrderLines(products, items[..i + 1], ids[..i + 1], orderId)
               == OrderLines(products, items[..i], ids[..i], orderId)
                  + [OrderItem(ids[i], orderId, Some(p.id), items[i].quantity, p.price, p.name, p.description)]
  {
    assert items[..i + 1][..i] == items[..i];
    assert ids[..i + 1][..i] == ids[..i];
  }

  /** The first requested item whose product does not exist. */
  function FirstMissing(products: seq<Product>, items: seq<ItemRequest>): (r: Option<nat>)
    ensures r.Some? ==>
              && r.value < |items| && FindProduct(products, items[r.value].productId).None?
              && forall j :: 0 <= j < r.value ==> FindProduct(products, items[j].productId).Some?
    ensures r.None? <==> forall j :: 0 <= j < |items| ==> FindProduct(products, items[j].productId).Some?
  {
    if items == [] then None
    else if FindProduct(products, items[0].productId).None? then Some(0)
    else
      var rest := FirstMissing(products, items[1..]);
      assert forall j :: 1 <= j < |items| ==> items[j] == items[1..][j - 1];
      if rest.None? then None else Some(rest.value + 1)
  }

  /** The store of the seller endpoints. */
  class SellerStore {
    const products: seq<Product>
    var wallets: seq<SellerWallet>
    var walletTransactions: seq<WalletTransaction>
    var orders: seq<Order>
    var orderItems: seq<OrderItem>

    constructor (products: seq<Product>, wallets: seq<SellerWallet>)
      ensures this.products == products && this.wallets == wallets
      ensures walletTransactions == [] && orders == [] && orderItems == []
    {
      this.products := products;
      this.wallets := wallets;
      walletTransactions := [];
      orders := [];
      orderItems := [];
    }

    /** The balance `validate_amount` reads, if the seller has a wallet. */
    function BalanceOf(sellerId: Id): (b: Option<int>)
      reads this
      ensures b.None? <==> forall k :: 0 <= k < |wallets| ==> wallets[k].sellerId != sellerId
      ensures b.Some? ==> exists k :: 0 <= k < |wallets| && wallets[k].sellerId == sellerId
                            && b.value == wallets[k].balance
                            && (forall j :: 0 <= j < k ==> wallets[j].sellerId != sellerId)
    {
      match WalletIndex(wallets, sellerId)
      case None => None
      case Some(k) => Some(wallets[k].balance)
    }

    /** `withdraw`: validation first (amount, wallet, balance), then the bank
        details; an accepted withdrawal records a pending transaction and
        takes exactly the amount off the wallet's balance. The wallet exists
        once validation passes, so no answer is a 404. */
    method Withdraw(sellerId: Id, amount: int, transactionId: Id) returns (resp: Response<Id>)
      modifies this
      ensures var v := ValidateWithdrawAmount(amount, old(BalanceOf(sellerId)));
        && (v.Err? ==> resp == Failure(HTTP_400, v.error)
                       && wallets == old(wallets) && walletTransactions == old(walletTransactions))
        && (v.Ok? ==>
              var k := WalletIndex(old(wallets), sellerId).value;
              var w := old(wallets)[k];
              && (!BankDetailsComplete(w) ==>
                    resp == Failure(HTTP_400, IncompleteBankMessage)
                    && wallets == old(wallets) && walletTransactions == old(walletTransactions))
              && (BankDetailsComplete(w) ==>
                    && resp == Success(HTTP_200, transactionId)
                    && wallets == old(wallets)[k := w.(balance := w.balance - amount)]
                    && walletTransactions == old(walletTransactions) + [WithdrawalRecord(transactionId, w.id, amount)]))
      ensures resp.Failure? ==> resp.code == HTTP_400
      ensures orders == old(orders) && orderItems == old(orderItems)
    {
      var v := ValidateWithdrawAmount(amount, BalanceOf(sellerId));
      if v.Err? {
        return Failure(HTTP_400, v.error);
      }
      var k := WalletIndex(wallets, sellerId).value;
      var w := wallets[k];
      if !BankDetailsComplete(w) {
        return Failure(HTTP_400, IncompleteBankMessage);
      }
      walletTransactions := walletTransactions + [WithdrawalRecord(transactionId, w.id, v.value)];
      wallets := wallets[k := w.(balance := w.balance - v.value)];
      resp := Success(HTTP_200, transactionId);
    }

    /** `update_order`: only the seller's own order is found; a missing or
        empty status and an unknown status are 400s; otherwise the status is
        set and the note replaced when one is sent (`sellerNote` is `None`
        when the key is absent). */
    method UpdateOrder(sellerId: Id, orderId: Id, status: Option<string>, sellerNote: Option<Option<string>>)
      returns (resp: Response<Order>)
      modifies this
      ensures match OrderIndex(old(orders), orderId, sellerId)
        case None => resp == Failure(HTTP_404, "Not found.") && orders == old(orders)
        case Some(k) =>
          if !TruthyString(status) then resp == Failure(HTTP_400, "Status field is required") && orders == old(orders)
          else if ParseOrderStatus(status.value).None? then
            resp == Failure(HTTP_400, "Invalid status value") && orders == old(orders)
          else
            var o := old(orders)[k];
            var updated := o.(status := ParseOrderStatus(status.value).value,
                              sellerNote := if sellerNote.Some? then sellerNote.value else o.sellerNote);
            resp == Success(HTTP_200, updated) && orders == old(orders)[k := updated]
      ensures wallets == old(wallets) && walletTransactions == old(walletTransactions)
      ensures orderItems == old(orderItems)
    {
      var found := OrderIndex(orders, orderId, sellerId);
      if found.None? {
        return Failure(HTTP_404, "Not found.");
      }
      if !TruthyString(status) {
        return Failure(HTTP_400, "Status field is required");
      }
      var parsed := ParseOrderStatus(status.value);
      if parsed.None? {
        return Failure(HTTP_400, "Invalid status value");
      }
      var k := found.value;
      var o := orders[k];
      var updated := o.(status := parsed.value, sellerNote := if sellerNote.Some? then sellerNote.value else o.sellerNote);
      orders := orders[k := updated];
      resp := Success(HTTP_200, updated);
    }

    /** `OrderCreateSerializer.create`: the order is written first with total
        0, then one item per request entry; a missing product stops the loop
        with an error and leaves the order and the items written so far.
        Otherwise the order's total is set to the sum of price times
        quantity. */
    method CreateOrder(buyerId: Id, sellerId: Id, buyerNote: Option<string>, items: seq<ItemRequest>,
                       orderId: Id, itemIds: seq<Id>)
      returns (r: Result<Order>)
      requires |itemIds| == |items|
      modifies this
      ensures var placed := Order(orderId, buyerId, sellerId, Pending, 0,
                                  Some(if buyerNote.Some? then buyerNote.value else ""), None);
        match FirstMissing(products, items)
        case Some(m) =>
          && r == Err("Product matching query does not exist.")
          && orders == old(orders) + [placed]
          && orderItems == old(orderItems) + OrderLines(products, items[..m], itemIds[..m], orderId)
        case None =>
          && r == Ok(placed.(totalAmount := RequestTotal(products, items)))
          && orders == old(orders) + [r.value]
          && orderItems == old(orderItems) + OrderLines(products, items, itemIds, orderId)
      ensures wallets == old(wallets) && walletTransactions == old(walletTransactions)
    {
      var placed := Order(orderId, buyerId, sellerId, Pending, 0,
                          Some(if buyerNote.Some? then buyerNote.value else ""), None);
      orders := orders + [placed];
      var total, missing := AddLines(orderId, items, itemIds);
      if missing.Some? {
        return Err("Product matching query does not exist.");
      }
      orders := orders[|orders| - 1 := placed.(totalAmount := total)];
      r := Ok(placed.(totalAmount := total));
    }

    /** The item loop of `create`: one snapshot line per requested item,
        stopping at the first item whose product is missing, and the
        running total of price times quantity. */
    method AddLines(orderId: Id, items: seq<ItemRequest>, itemIds: seq<Id>) returns (total: int, missing: Option<nat>)
      requires |itemIds| == |items|
      modifies this
      ensures missing == FirstMissing(products, items)
      ensures missing.Some? ==>
                orderItems == old(orderItems) + OrderLines(products, items[..missing.value], itemIds[..missing.value], orderId)
      ensures missing.None? ==>
                && total == RequestTotal(products, items)
                && orderItems == old(orderItems) + OrderLines(products, items, itemIds, orderId)
      ensures orders == old(orders) && wallets == old(wallets) && walletTransactions == old(walletTransactions)
    {
      total := 0;
      for i := 0 to |items|
        invariant forall j :: 0 <= j < i ==> FindProduct(products, items[j].productId).Some?
        invariant total == RequestTotal(products, items[..i])
        invariant orderItems == old(orderItems) + OrderLines(products, items[..i], itemIds[..i], orderId)
        invariant orders == old(orders) && wallets == old(wallets) && walletTransactions == old(walletTransactions)
      {
        var product := FindProduct(products, items[i].productId);
        if product.None? {
          FirstMissingIsFirst(products, items, i);
          return total, Some(i);
        }
        LinesStep(products, items, itemIds, orderId, i);
        var price := product.value.price;
        total := total + price * items[i].quantity;
        orderItems := orderItems + [OrderItem(itemIds[i], orderId, Some(product.value.id), items[i].quantity,
                                              price, product.value.name, product.value.description)];
      }
      assert items[..|items|] == items;
      assert itemIds[..|items|] == itemIds;
      missing := None;
    }
  }

  /** An item whose product is missing, preceded only by items whose
      products exist, is the first missing one. */
  lemma FirstMissingIsFirst(products: seq<Product>, items: seq<ItemRequest>, i: nat)
    requires i < |items| && FindProduct(products, items[i].productId).None?
    requires forall j :: 0 <= j < i ==> FindProduct(products, items[j].productId).Some?
    ensures FirstMissing(products, items) == Some(i)
  {
  }
}
