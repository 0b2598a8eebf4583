/**
 * The cart drawer and the checkout dialog of src/components/header/user/products-cart.tsx:
 * the total price fold, the grouping of cart lines into one sub-order per store, and the
 * confirmation step that posts the order and clears the cart only when the post succeeds.
 * Prices are integer cents; the network answer is an input.
 */
module ProductsCart {

  import opened Options
  import opened Seqs
  import opened ProductItems
  import opened JsObjects

  // ----- total price -----

  /** `unitPrice ?? 0`: the price a line is charged at. */
  function PriceOf(line: CartLine): int {
    line.unitPrice.GetOr(0)
  }

  /** `(quantity ?? 1) * (unitPrice ?? 0)`. */
  function LineTotal(line: CartLine): int {
    EffectiveQuantity(line) * PriceOf(line)
  }

  /** The `reduce` fold, from accumulator `acc`. */
  function TotalFrom(acc: int, lines: seq<CartLine>): int
    decreases |lines|
  {
    if lines == [] then acc else TotalFrom(acc + LineTotal(lines[0]), lines[1..])
  }

  /** `totalPrice`: `products.reduce(..., 0)`. */
  function TotalPrice(lines: seq<CartLine>): int {
    TotalFrom(0, lines)
  }

  /** The reference: the sum of the line totals. */
  function CartSum(lines: seq<CartLine>): int {
    if lines == [] then 0 else LineTotal(lines[0]) + CartSum(lines[1..])
  }

  lemma {:induction false} TotalFromIsSum(acc: int, lines: seq<CartLine>)
    ensures TotalFrom(acc, lines) == acc + CartSum(lines)
    decreases |lines|
  {
    if lines != [] {
      TotalFromIsSum(acc + LineTotal(lines[0]), lines[1..]);
    }
  }

  /** The fold computes the sum of the line totals; an empty cart totals 0. */
  lemma TotalPriceIsSum(lines: seq<CartLine>)
    ensures TotalPrice(lines) == CartSum(lines)
    ensures lines == [] ==> TotalPrice(lines) == 0
  {
    TotalFromIsSum(0, lines);
  }

  /** One line of quantity 3 at 2.50 totals 7.50. */
  lemma TotalPriceExample(line: CartLine)
    requires line.quantity == Some(3) && line.unitPrice == Some(250)
    ensures TotalPrice([line]) == 750
  {
    assert LineTotal(line) == 750;
    assert TotalFrom(0, [line]) == TotalFrom(750, [line][1..]);
  }

  lemma {:induction false} CartSumAppend(a: seq<CartLine>, b: seq<CartLine>)
    ensures CartSum(a + b) == CartSum(a) + CartSum(b)
  {
    if a == [] {
      assert a + b == b;
    } else {
      assert (a + b)[1..] == a[1..] + b;
      CartSumAppend(a[1..], b);
    }
  }

  lemma {:induction false} CartSumReplace(lines: seq<CartLine>, k: nat, line: CartLine)
    requires k < |lines|
    ensures CartSum(lines[k := line]) == CartSum(lines) - LineTotal(lines[k]) + LineTotal(line)
  {
    if k > 0 {
      CartSumReplace(lines[1..], k - 1, line);
      assert lines[k := line][1..] == lines[1..][k - 1 := line];
    }
  }

  /** Dropping lines of quantity 0 does not change the sum. */
  lemma {:induction false} CartSumWithoutZeros(lines: seq<CartLine>)
    requires forall x :: x in lines ==> EffectiveQuantity(x) >= 0
    ensures CartSum(Filter(lines, HasPositiveQuantity)) == CartSum(lines)
  {
    if lines != [] {
      CartSumWithoutZeros(lines[1..]);
    }
  }

  /** The line that `k` names is the only one with its id, so a per-line map changes just `k`. */
  lemma OnlyLine(lines: seq<CartLine>, k: nat)
    requires UniqueIds(lines) && k < |lines|
    ensures forall i :: 0 <= i < |lines| && i != k ==> lines[i].productId != lines[k].productId
  {
  }

  lemma TotalAfterAddNew(lines: seq<CartLine>, product: CartLine)
    requires !HasProduct(lines, product.productId)
    ensures TotalPrice(WithAdded(lines, product)) == TotalPrice(lines) + PriceOf(product)
  {
    TotalPriceIsSum(lines);
    TotalPriceIsSum(WithAdded(lines, product));
    CartSumAppend(lines, [product.(quantity := Some(1))]);
  }

  /**
   * Adding a product already in the cart raises the total by its price, except when its line
   * had no quantity: then the total is unchanged.
   */
  lemma TotalAfterAddExisting(lines: seq<CartLine>, product: CartLine, k: nat)
    requires UniqueIds(lines) && k < |lines| && lines[k].productId == product.productId
    ensures TotalPrice(WithAdded(lines, product)) ==
      TotalPrice(lines) + (if lines[k].quantity.Some? then PriceOf(lines[k]) else 0)
  {
    var line := lines[k].(quantity := Some(lines[k].quantity.GetOr(0) + 1));
    OnlyLine(lines, k);
    assert WithAdded(lines, product) == lines[k := line];
    CartSumReplace(lines, k, line);
    TotalPriceIsSum(lines);
    TotalPriceIsSum(lines[k := line]);
    var q, p := lines[k].quantity.GetOr(0), PriceOf(lines[k]);
    assert (q + 1) * p == q * p + p;
  }

  lemma TotalAfterIncrease(lines: seq<CartLine>, k: nat)
    requires UniqueIds(lines) && k < |lines|
    ensures TotalPrice(WithIncreased(lines, lines[k].productId)) == TotalPrice(lines) + PriceOf(lines[k])
  {
    var line := lines[k].(quantity := Some(EffectiveQuantity(lines[k]) + 1));
    OnlyLine(lines, k);
    assert WithIncreased(lines, lines[k].productId) == lines[k := line];
    CartSumReplace(lines, k, line);
    TotalPriceIsSum(lines);
    TotalPriceIsSum(lines[k := line]);
    var q, p := EffectiveQuantity(lines[k]), PriceOf(lines[k]);
    assert (q + 1) * p == q * p + p;
  }

  /** Decreasing a line lowers the total by its price, whether the line stays or goes. */
  lemma TotalAfterDecrease(lines: seq<CartLine>, k: nat)
    requires UniqueIds(lines) && PositiveQuantities(lines) && k < |lines|
    ensures TotalPrice(WithDecreased(lines, lines[k].productId)) == TotalPrice(lines) - PriceOf(lines[k])
  {
    var id := lines[k].productId;
    var line := lines[k].(quantity := Some(EffectiveQuantity(lines[k]) - 1));
    var m := Decremented(lines, id);
    OnlyLine(lines, k);
    assert m == lines[k := line];
    forall x | x in m
      ensures EffectiveQuantity(x) >= 0
    {
      var i :| 0 <= i < |m| && m[i] == x;
      assert HasPositiveQuantity(lines[i]);
    }
    CartSumWithoutZeros(m);
    CartSumReplace(lines, k, line);
    TotalPriceIsSum(lines);
    TotalPriceIsSum(WithDecreased(lines, id));
    var q, p := EffectiveQuantity(lines[k]), PriceOf(lines[k]);
    assert (q - 1) * p == q * p - p;
  }

  // ----- sub-orders -----

  /** `{ productId, quantity: quantity ?? 1, unitPrice }`. */
  datatype OrderItem = OrderItem(productId: int, quantity: int, unitPrice: Option<int>)

  datatype SubOrder = SubOrder(storeId: int, orderItems: seq<OrderItem>)

  function ToOrderItem(line: CartLine): OrderItem {
    OrderItem(line.productId, EffectiveQuantity(line), line.unitPrice)
  }

  function OrderItems(lines: seq<CartLine>): seq<OrderItem> {
    seq(|lines|, i requires 0 <= i < |lines| => ToOrderItem(lines[i]))
  }

  function InStore(storeId: int): CartLine -> bool {
    (line: CartLine) => line.storeId == storeId
  }

  predicate HasStore(lines: seq<CartLine>, storeId: int) {
    exists i :: 0 <= i < |lines| && lines[i].storeId == storeId
  }

  /** The store ids of the lines, each once, in order of first appearance: the keys `acc` gets. */
  function StoresInOrder(lines: seq<CartLine>): seq<int>
    decreases |lines|
  {
    if lines == [] then []
    else
      var init := StoresInOrder(lines[..|lines| - 1]);
      var storeId := lines[|lines| - 1].storeId;
      if storeId in init then init else init + [storeId]
  }

  /** The items `acc[storeId].orderItems` collects from the lines. */
  function ItemsOf(lines: seq<CartLine>, storeId: int): seq<OrderItem>
    decreases |lines|
  {
    if lines == [] then []
    else
      var last := lines[|lines| - 1];
      ItemsOf(lines[..|lines| - 1], storeId) + (if last.storeId == storeId then [ToOrderItem(last)] else [])
  }

  /** What the grouping yields: per store, in property order, the items of that store's lines. */
  function SubOrdersOf(lines: seq<CartLine>): seq<SubOrder> {
    var order := PropertyOrder(StoresInOrder(lines));
    seq(|order|, j requires 0 <= j < |order| => SubOrder(order[j], ItemsOf(lines, order[j])))
  }

  lemma {:induction false} StoresInOrderSpec(lines: seq<CartLine>)
    ensures Distinct(StoresInOrder(lines))
    ensures forall k :: k in StoresInOrder(lines) <==> HasStore(lines, k)
    decreases |lines|
  {
    if lines != [] {
      var init := lines[..|lines| - 1];
      StoresInOrderSpec(init);
      var storeId := lines[|lines| - 1].storeId;
      forall k
        ensures HasStore(lines, k) <==> HasStore(init, k) || k == storeId
      {
        if HasStore(lines, k) {
          var i :| 0 <= i < |lines| && lines[i].storeId == k;
          if i < |lines| - 1 {
            assert init[i] == lines[i];
          }
        }
        if HasStore(init, k) {
          var i :| 0 <= i < |init| && init[i].storeId == k;
          assert lines[i] == init[i];
        }
      }
    }
  }

  lemma {:induction false} ItemsOfAbsent(lines: seq<CartLine>, storeId: int)
    requires storeId !in StoresInOrder(lines)
    ensures ItemsOf(lines, storeId) == []
    decreases |lines|
  {
    if lines != [] {
      ItemsOfAbsent(lines[..|lines| - 1], storeId);
    }
  }

  lemma {:induction false} ItemsOfNonEmpty(lines: seq<CartLine>, storeId: int)
    requires HasStore(lines, storeId)
    ensures ItemsOf(lines, storeId) != []
    decreases |lines|
  {
    var init := lines[..|lines| - 1];
    if lines[|lines| - 1].storeId != storeId {
      var i :| 0 <= i < |lines| && lines[i].storeId == storeId;
      assert init[i] == lines[i];
      ItemsOfNonEmpty(init, storeId);
    }
  }

  /** A store's items are its lines' items, in cart order. */
  lemma {:induction false} ItemsOfInCartOrder(lines: seq<CartLine>, storeId: int)
    ensures ItemsOf(lines, storeId) == OrderItems(Filter(lines, InStore(storeId)))
    decreases |lines|
  {
    if lines != [] {
      var init, last := lines[..|lines| - 1], lines[|lines| - 1];
      ItemsOfInCartOrder(init, storeId);
      assert lines == init + [last];
      FilterConcat(init, [last], InStore(storeId));
      var f := Filter(init, InStore(storeId));
      assert OrderItems(f + Filter([last], InStore(storeId))) ==
        OrderItems(f) + (if last.storeId == storeId then [ToOrderItem(last)] else []);
    }
  }

  // ----- each line lands in exactly one sub-order -----

  function Flatten(subOrders: seq<SubOrder>): seq<OrderItem> {
    if subOrders == [] then [] else subOrders[0].orderItems + Flatten(subOrders[1..])
  }

  function ItemsOver(lines: seq<CartLine>, stores: seq<int>): seq<OrderItem> {
    if stores == [] then [] else ItemsOf(lines, stores[0]) + ItemsOver(lines, stores[1..])
  }

  lemma {:induction false} FlattenIsItemsOver(lines: seq<CartLine>, stores: seq<int>)
    ensures Flatten(seq(|stores|, j requires 0 <= j < |stores| => SubOrder(stores[j], ItemsOf(lines, stores[j]))))
      == ItemsOver(lines, stores)
  {
    var subs := seq(|stores|, j requires 0 <= j < |stores| => SubOrder(stores[j], ItemsOf(lines, stores[j])));
    if stores != [] {
      FlattenIsItemsOver(lines, stores[1..]);
      assert subs[1..] == seq(|stores[1..]|, j requires 0 <= j < |stores[1..]| =>
        SubOrder(stores[1..][j], ItemsOf(lines, stores[1..][j])));
    }
  }

  lemma ItemsOfSnoc(lines: seq<CartLine>, line: CartLine, storeId: int)
    ensures ItemsOf(lines + [line], storeId) ==
      ItemsOf(lines, storeId) + (if line.storeId == storeId then [ToOrderItem(line)] else [])
  {
    assert (lines + [line])[..|lines|] == lines;
  }

  lemma {:induction false} ItemsOverAppend(lines: seq<CartLine>, line: CartLine, stores: seq<int>)
    requires Distinct(stores)
    ensures multiset(ItemsOver(lines + [line], stores)) ==
      multiset(ItemsOver(lines, stores)) + (if line.storeId in stores then multiset{ToOrderItem(line)} else multiset{})
  {
    if stores != [] {
      var storeId, rest := stores[0], stores[1..];
      DistinctTail(stores);
      ItemsOverAppend(lines, line, rest);
      ItemsOfSnoc(lines, line, storeId);
      var item := ToOrderItem(line);
      assert ItemsOver(lines + [line], stores) == ItemsOf(lines + [line], storeId) + ItemsOver(lines + [line], rest);
      assert ItemsOver(lines, stores) == ItemsOf(lines, storeId) + ItemsOver(lines, rest);
      if line.storeId == storeId {
        assert ItemsOf(lines + [line], storeId) == ItemsOf(lines, storeId) + [item];
        assert line.storeId !in rest;
      } else {
        assert ItemsOf(lines + [line], storeId) == ItemsOf(lines, storeId);
        assert line.storeId in stores <==> line.storeId in rest;
      }
    }
  }

  lemma OrderItemsSnoc(init: seq<CartLine>, last: CartLine)
    ensures OrderItems(init + [last]) == OrderItems(init) + [ToOrderItem(last)]
  {
  }

  lemma {:induction false} ItemsOverMultiset(lines: seq<CartLine>, stores: seq<int>)
    requires Distinct(stores)
    requires forall i :: 0 <= i < |lines| ==> lines[i].storeId in stores
    ensures multiset(ItemsOver(lines, stores)) == multiset(OrderItems(lines))
    decreases |lines|
  {
    if lines == [] {
      ItemsOverEmpty(stores);
    } else {
      var init, last := lines[..|lines| - 1], lines[|lines| - 1];
      assert lines == init + [last];
      assert forall i :: 0 <= i < |init| ==> init[i] == lines[i];
      ItemsOverMultiset(init, stores);
      ItemsOverAppend(init, last, stores);
      OrderItemsSnoc(init, last);
      assert last.storeId in stores;
    }
  }

  lemma {:induction false} ItemsOverEmpty(stores: seq<int>)
    ensures ItemsOver([], stores) == []
  {
    if stores != [] {
      ItemsOverEmpty(stores[1..]);
    }
  }

  /** Each sub-order holds exactly its store's items, in cart order, and is never empty. */
  lemma SubOrdersItems(lines: seq<CartLine>)
    ensures forall j :: 0 <= j < |SubOrdersOf(lines)| ==>
      SubOrdersOf(lines)[j].orderItems == OrderItems(Filter(lines, InStore(SubOrdersOf(lines)[j].storeId)))
    ensures forall j :: 0 <= j < |SubOrdersOf(lines)| ==> SubOrdersOf(lines)[j].orderItems != []
  {
    var order := PropertyOrder(StoresInOrder(lines));
    var subs := SubOrdersOf(lines);
    StoresInOrderSpec(lines);
    PropertyOrderMembers(StoresInOrder(lines));
    forall j | 0 <= j < |subs|
      ensures subs[j].orderItems == OrderItems(Filter(lines, InStore(subs[j].storeId)))
      ensures subs[j].orderItems != []
    {
      assert subs[j].storeId == order[j] && order[j] in StoresInOrder(lines);
      ItemsOfInCartOrder(lines, order[j]);
      ItemsOfNonEmpty(lines, order[j]);
    }
  }

  lemma DistinctPropertyOrder(lines: seq<CartLine>)
    ensures Distinct(PropertyOrder(StoresInOrder(lines)))
  {
    StoresInOrderSpec(lines);
    PropertyOrderMembers(StoresInOrder(lines));
  }

  /** No two sub-orders share a store id. */
  lemma SubOrdersDistinct(lines: seq<CartLine>)
    ensures forall j, j' :: 0 <= j < j' < |SubOrdersOf(lines)| ==>
      SubOrdersOf(lines)[j].storeId != SubOrdersOf(lines)[j'].storeId
  {
    var order := PropertyOrder(StoresInOrder(lines));
    var subs := SubOrdersOf(lines);
    DistinctPropertyOrder(lines);
    forall j, j' | 0 <= j < j' < |subs|
      ensures subs[j].storeId != subs[j'].storeId
    {
      DistinctAt(order, j, j');
    }
  }

  /** A store has a sub-order exactly when some cart line belongs to it. */
  lemma SubOrdersCover(lines: seq<CartLine>)
    ensures forall k :: HasStore(lines, k) <==> exists j :: 0 <= j < |SubOrdersOf(lines)| && SubOrdersOf(lines)[j].storeId == k
  {
    var order := PropertyOrder(StoresInOrder(lines));
    var subs := SubOrdersOf(lines);
    StoresInOrderSpec(lines);
    PropertyOrderMembers(StoresInOrder(lines));
    forall k
      ensures HasStore(lines, k) <==> exists j :: 0 <= j < |subs| && subs[j].storeId == k
    {
      if HasStore(lines, k) {
        assert k in order;
        var j :| 0 <= j < |order| && order[j] == k;
        assert subs[j].storeId == k;
      }
      if exists j :: 0 <= j < |subs| && subs[j].storeId == k {
        var j :| 0 <= j < |subs| && subs[j].storeId == k;
        assert order[j] in order;
      }
    }
  }

  /** Together the sub-orders hold every line's item exactly as often as the cart does. */
  lemma SubOrdersFlatten(lines: seq<CartLine>)
    ensures multiset(Flatten(SubOrdersOf(lines))) == multiset(OrderItems(lines))
  {
    var order := PropertyOrder(StoresInOrder(lines));
    StoresInOrderSpec(lines);
    PropertyOrderMembers(StoresInOrder(lines));
    DistinctPropertyOrder(lines);
    forall i | 0 <= i < |lines|
      ensures lines[i].storeId in order
    {
      assert HasStore(lines, lines[i].storeId);
    }
    FlattenIsItemsOver(lines, order);
    ItemsOverMultiset(lines, order);
  }

  /** Sub-orders of array-index store ids come first, in ascending store id order. */
  lemma SubOrdersAscending(lines: seq<CartLine>)
    ensures forall j, j' :: 0 <= j < j' < |SubOrdersOf(lines)| && IsArrayIndex(SubOrdersOf(lines)[j'].storeId) ==>
      IsArrayIndex(SubOrdersOf(lines)[j].storeId) && SubOrdersOf(lines)[j].storeId < SubOrdersOf(lines)[j'].storeId
  {
    StoresInOrderSpec(lines);
    PropertyOrderAscending(StoresInOrder(lines));
  }

  /** Two lines of store 1 and one of store 2 give two sub-orders, store 1's holding both its lines. */
  lemma SubOrdersExample(a: CartLine, b: CartLine, c: CartLine)
    requires a.storeId == 1 && b.storeId == 1 && c.storeId == 2
    ensures SubOrdersOf([a, b, c]) ==
      [SubOrder(1, [ToOrderItem(a), ToOrderItem(b)]), SubOrder(2, [ToOrderItem(c)])]
  {
    var lines := [a, b, c];
    assert lines[..2] == [a, b] && lines[..1] == [a] && [a, b][..1] == [a] && [a][..0] == [];
    assert StoresInOrder([a]) == [1];
    assert StoresInOrder([a, b]) == [1];
    assert StoresInOrder(lines) == [1, 2];
    assert Filter([1, 2], IsArrayIndex) == [1, 2];
    assert Filter([1, 2], IsOtherKey) == [];
    assert SortAscending([1, 2]) == [1, 2];
    assert PropertyOrder([1, 2]) == [1, 2];
    assert ItemsOf([a], 1) == ItemsOf([], 1) + [ToOrderItem(a)];
    assert ItemsOf([a], 2) == ItemsOf([], 2) + [];
    assert ItemsOf([a, b], 1) == [ToOrderItem(a), ToOrderItem(b)] && ItemsOf([a, b], 2) == [];
    assert ItemsOf(lines, 1) == [ToOrderItem(a), ToOrderItem(b)];
    assert ItemsOf(lines, 2) == [ToOrderItem(c)];
  }

  /** `Object.values` of the grouping object built from all of `lines` lists `SubOrdersOf(lines)`. */
  lemma GroupedValues(acc: JsRecord<SubOrder>, lines: seq<CartLine>)
    requires acc.keys == StoresInOrder(lines)
    requires forall k :: k in acc.entries <==> k in acc.keys
    requires forall k :: k in acc.entries ==> acc.entries[k] == SubOrder(k, ItemsOf(lines, k))
    ensures ObjectValues(acc) == SubOrdersOf(lines)
  {
    var values := ObjectValues(acc);
    PropertyOrderMembers(acc.keys);
    forall j | 0 <= j < |values|
      ensures values[j] == SubOrdersOf(lines)[j]
    {
      assert PropertyOrder(acc.keys)[j] in acc.keys;
    }
  }

  /**
   * The `reduce` of `handleConfirm` building the `acc` object, then `Object.values(acc)`.
   */
  method GroupSubOrders(lines: seq<CartLine>) returns (subOrders: seq<SubOrder>)
    ensures subOrders == SubOrdersOf(lines)
    ensures forall j :: 0 <= j < |subOrders| ==> subOrders[j].orderItems != []
    ensures forall j, j' :: 0 <= j < j' < |subOrders| ==> subOrders[j].storeId != subOrders[j'].storeId
    ensures multiset(Flatten(subOrders)) == multiset(OrderItems(lines))
  {
    var acc: JsRecord<SubOrder> := JsRecord([], map[]);
    var i := 0;
    while i < |lines|
      invariant 0 <= i <= |lines|
      invariant acc.keys == StoresInOrder(lines[..i])
      invariant forall k :: k in acc.entries <==> k in acc.keys
      invariant forall k :: k in acc.entries ==> acc.entries[k] == SubOrder(k, ItemsOf(lines[..i], k))
    {
      var product := lines[i];
      var storeId := product.storeId;
      assert lines[..i + 1][..i] == lines[..i];
      if storeId !in acc.entries {
        ItemsOfAbsent(lines[..i], storeId);
        acc := JsRecord(acc.keys + [storeId], acc.entries[storeId := SubOrder(storeId, [])]);
      }
      ghost var before := acc.entries;
      var group := acc.entries[storeId];
      acc := acc.(entries := acc.entries[storeId := group.(orderItems := group.orderItems + [ToOrderItem(product)])]);
      forall k | k in acc.entries
        ensures acc.entries[k] == SubOrder(k, ItemsOf(lines[..i + 1], k))
      {
        assert ItemsOf(lines[..i + 1], k) ==
          ItemsOf(lines[..i], k) + (if storeId == k then [ToOrderItem(product)] else []);
        assert before[k] == SubOrder(k, ItemsOf(lines[..i], k));
      }
      i := i + 1;
    }
    assert lines[..i] == lines;
    subOrders := ObjectValues(acc);
    GroupedValues(acc, lines);
    SubOrdersItems(lines);
    SubOrdersDistinct(lines);
    SubOrdersFlatten(lines);
  }

  // ----- confirming the order -----

  /** The checkout form's address; its map coordinates are not part of the request. */
  datatype Address = Address(text: string)

  /** The JSON body posted to `/orders/create`. */
  datatype CheckoutRequest = CheckoutRequest(customerId: string, address: string, subOrders: seq<SubOrder>)

  datatype NoticeKind = Success | Error

  datatype Notification = Notification(kind: NoticeKind, message: string, description: string, key: string)

  const OrderCreated: Notification :=
    Notification(Success, "Ordered successfully", "You can follow your order.", "sucess-order")

  const OrderFailed: Notification :=
    Notification(Error, "Error creating order", "Your order couldn't be created.", "error-order")

  /** How the `fetch` of the order ended: an answer with its `res.ok` flag, or a rejection. */
  datatype FetchOutcome = Responded(ok: bool) | Rejected

  /**
   * `handleConfirm`: build the request from the cart and post it. On an ok answer notify,
   * close the dialog and clear the cart; on another answer only notify; when the `fetch`
   * rejects, `handleConfirm` rejects with it before any notice, and the dialog and the cart
   * stay as they were.
   */
  method HandleConfirm(store: ProductsStore, userId: string, address: Address, outcome: FetchOutcome)
    returns (request: CheckoutRequest, notice: Option<Notification>, dialogClosed: bool)
    modifies store
    ensures request == CheckoutRequest(userId, address.text, SubOrdersOf(old(store.products)))
    ensures multiset(Flatten(request.subOrders)) == multiset(OrderItems(old(store.products)))
    ensures outcome == Responded(true) ==> store.products == [] && notice == Some(OrderCreated) && dialogClosed
    ensures outcome == Responded(false) ==>
      store.products == old(store.products) && notice == Some(OrderFailed) && !dialogClosed
    ensures outcome == Rejected ==> store.products == old(store.products) && notice == None && !dialogClosed
  {
    var subOrders := GroupSubOrders(store.products);
    request := CheckoutRequest(userId, address.text, subOrders);
    match outcome {
      case Responded(ok) =>
        if ok {
          notice := Some(OrderCreated);
          dialogClosed := true;
          store.ClearProducts();
        } else {
          notice := Some(OrderFailed);
          dialogClosed := false;
        }
      case Rejected =>
        notice := None;
        dialogClosed := false;
    }
  }
}
