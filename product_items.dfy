/**
 * The shopping-cart store of src/store/productItems.ts (`useProductsStore`): an ordered list of
 * cart lines keyed by `productId`. Every action replaces the list with a new one computed by
 * `find`/`map`/`filter`/spread; those computations are the functions below, and the store is
 * the class `ProductsStore` whose methods assign them to its `products` field.
 */
module ProductItems {

  import opened Options
  import opened Seqs

  /**
   * A cart line (`IProductExtended`): an available product as listed by the catalogue, with the
   * quantity the cart keeps. Prices are integer cents.
   */
  datatype CartLine = CartLine(
    productId: int,
    productName: string,
    imageUrl: string,
    unitPrice: Option<int>,
    storeId: int,
    categoryId: int,
    quantity: Option<int>)

  /** `Partial<IProductExtended>`: each `Some` field is one the update overwrites. */
  datatype LinePatch = LinePatch(
    productId: Option<int>,
    productName: Option<string>,
    imageUrl: Option<string>,
    unitPrice: Option<int>,
    storeId: Option<int>,
    categoryId: Option<int>,
    quantity: Option<int>)

  /** `{ ...line, ...patch }`. */
  function Patched(line: CartLine, patch: LinePatch): CartLine {
    CartLine(
      patch.productId.GetOr(line.productId),
      patch.productName.GetOr(line.productName),
      patch.imageUrl.GetOr(line.imageUrl),
      if patch.unitPrice.Some? then patch.unitPrice else line.unitPrice,
      patch.storeId.GetOr(line.storeId),
      patch.categoryId.GetOr(line.categoryId),
      if patch.quantity.Some? then patch.quantity else line.quantity)
  }

  /** `quantity ?? 1`: the quantity the cart shows, totals and checks out. */
  function EffectiveQuantity(line: CartLine): int {
    line.quantity.GetOr(1)
  }

  /** The condition `decreaseQuantity` keeps lines by: `(quantity ?? 1) > 0`. */
  predicate HasPositiveQuantity(line: CartLine) {
    EffectiveQuantity(line) > 0
  }

  function OtherThan(id: int): CartLine -> bool {
    (line: CartLine) => line.productId != id
  }

  predicate HasProduct(lines: seq<CartLine>, id: int) {
    exists i :: 0 <= i < |lines| && lines[i].productId == id
  }

  /** No two lines share a `productId`. */
  predicate UniqueIds(lines: seq<CartLine>) {
    forall i, j :: 0 <= i < j < |lines| ==> lines[i].productId != lines[j].productId
  }

  /** Every line has a positive quantity or none (which counts as 1). */
  predicate PositiveQuantities(lines: seq<CartLine>) {
    forall i :: 0 <= i < |lines| ==> HasPositiveQuantity(lines[i])
  }

  // ----- the new product lists the actions compute -----

  /** `addProduct(product)`: raise an existing line by `(quantity ?? 0) + 1`, or append `{ ...product, quantity: 1 }`. */
  function WithAdded(lines: seq<CartLine>, product: CartLine): seq<CartLine> {
    if HasProduct(lines, product.productId) then
      seq(|lines|, i requires 0 <= i < |lines| =>
        if lines[i].productId == product.productId
        then lines[i].(quantity := Some(lines[i].quantity.GetOr(0) + 1))
        else lines[i])
    else lines + [product.(quantity := Some(1))]
  }

  /** `removeProduct(id)`. */
  function WithoutProduct(lines: seq<CartLine>, id: int): seq<CartLine> {
    Filter(lines, OtherThan(id))
  }

  /** `updateProduct(id, patch)`. */
  function WithUpdated(lines: seq<CartLine>, id: int, patch: LinePatch): seq<CartLine> {
    seq(|lines|, i requires 0 <= i < |lines| =>
      if lines[i].productId == id then Patched(lines[i], patch) else lines[i])
  }

  /** `increaseQuantity(id)`: `(quantity ?? 1) + 1` on the matching lines. */
  function WithIncreased(lines: seq<CartLine>, id: int): seq<CartLine> {
    seq(|lines|, i requires 0 <= i < |lines| =>
      if lines[i].productId == id
      then lines[i].(quantity := Some(EffectiveQuantity(lines[i]) + 1))
      else lines[i])
  }

  /** The `map` step of `decreaseQuantity(id)`: `(quantity ?? 1) - 1` on the matching lines. */
  function Decremented(lines: seq<CartLine>, id: int): seq<CartLine> {
    seq(|lines|, i requires 0 <= i < |lines| =>
      if lines[i].productId == id
      then lines[i].(quantity := Some(EffectiveQuantity(lines[i]) - 1))
      else lines[i])
  }

  /** `decreaseQuantity(id)`: decrement, then drop every line whose quantity is not positive. */
  function WithDecreased(lines: seq<CartLine>, id: int): seq<CartLine> {
    Filter(Decremented(lines, id), HasPositiveQuantity)
  }

  // ----- the store -----

  class ProductsStore {

    var products: seq<CartLine>

    constructor ()
      ensures products == []
    {
      products := [];
    }

    method SetProducts(lines: seq<CartLine>)
      modifies this
      ensures products == lines
    {
      products := lines;
    }

    method AddProduct(product: CartLine)
      modifies this
      ensures products == WithAdded(old(products), product)
      ensures HasProduct(products, product.productId)
      ensures UniqueIds(old(products)) ==> UniqueIds(products)
      ensures PositiveQuantities(old(products)) ==> PositiveQuantities(products)
    {
      AddKeepsUnique(products, product);
      if PositiveQuantities(products) {
        AddKeepsPositive(products, product);
      }
      products := WithAdded(products, product);
    }

    method RemoveProduct(id: int)
      modifies this
      ensures products == WithoutProduct(old(products), id)
      ensures !HasProduct(products, id)
      ensures IsSubsequence(products, old(products))
      ensures UniqueIds(old(products)) ==> UniqueIds(products)
      ensures PositiveQuantities(old(products)) ==> PositiveQuantities(products)
    {
      RemoveSpec(products, id);
      RemoveKeepsInvariants(products, id);
      products := WithoutProduct(products, id);
    }

    method UpdateProduct(id: int, patch: LinePatch)
      modifies this
      ensures products == WithUpdated(old(products), id, patch)
      ensures |products| == |old(products)|
      ensures forall i :: 0 <= i < |products| && old(products)[i].productId != id ==> products[i] == old(products)[i]
    {
      products := WithUpdated(products, id, patch);
    }

    method IncreaseQuantity(id: int)
      modifies this
      ensures products == WithIncreased(old(products), id)
      ensures UniqueIds(old(products)) ==> UniqueIds(products)
      ensures PositiveQuantities(old(products)) ==> PositiveQuantities(products)
    {
      products := WithIncreased(products, id);
    }

    method DecreaseQuantity(id: int)
      modifies this
      ensures products == WithDecreased(old(products), id)
      ensures PositiveQuantities(products)
      ensures UniqueIds(old(products)) ==> UniqueIds(products)
    {
      DecreaseLeavesPositive(products, id);
      if UniqueIds(products) {
        DecreaseKeepsUnique(products, id);
      }
      products := WithDecreased(products, id);
    }

    method ClearProducts()
      modifies this
      ensures products == []
    {
      products := [];
    }
  }

  // ----- addProduct -----

  /** A product not yet in the cart becomes one new last line with quantity 1. */
  lemma AddNewAppends(lines: seq<CartLine>, product: CartLine)
    requires !HasProduct(lines, product.productId)
    ensures |WithAdded(lines, product)| == |lines| + 1
    ensures WithAdded(lines, product)[..|lines|] == lines
    ensures WithAdded(lines, product)[|lines|] == product.(quantity := Some(1))
  {
  }

  /**
   * A product already in the cart keeps the length; only its line changes, by one more than its
   * quantity, an absent quantity counting as 0.
   */
  lemma AddExistingRaises(lines: seq<CartLine>, product: CartLine)
    requires HasProduct(lines, product.productId)
    ensures |WithAdded(lines, product)| == |lines|
    ensures forall i :: 0 <= i < |lines| ==>
      WithAdded(lines, product)[i] ==
        if lines[i].productId == product.productId
        then lines[i].(quantity := Some(lines[i].quantity.GetOr(0) + 1))
        else lines[i]
  {
  }

  lemma AddKeepsUnique(lines: seq<CartLine>, product: CartLine)
    ensures HasProduct(WithAdded(lines, product), product.productId)
    ensures UniqueIds(lines) ==> UniqueIds(WithAdded(lines, product))
  {
    var r := WithAdded(lines, product);
    if !HasProduct(lines, product.productId) {
      assert r[|lines|].productId == product.productId;
    } else {
      var k :| 0 <= k < |lines| && lines[k].productId == product.productId;
      assert r[k].productId == product.productId;
    }
  }

  lemma AddKeepsPositive(lines: seq<CartLine>, product: CartLine)
    requires PositiveQuantities(lines)
    ensures PositiveQuantities(WithAdded(lines, product))
  {
  }

  /** Adding the same new product twice gives a single line with quantity 2. */
  lemma AddTwice(lines: seq<CartLine>, product: CartLine)
    requires !HasProduct(lines, product.productId)
    ensures WithAdded(WithAdded(lines, product), product) == lines + [product.(quantity := Some(2))]
  {
    var once := WithAdded(lines, product);
    assert once[|lines|].productId == product.productId;
    var twice := WithAdded(once, product);
    assert |twice| == |lines| + 1;
    forall i | 0 <= i < |twice|
      ensures twice[i] == (lines + [product.(quantity := Some(2))])[i]
    {
      if i < |lines| {
        assert once[i] == lines[i];
        assert lines[i].productId != product.productId;
      }
    }
  }

  /**
   * The asymmetry with `increaseQuantity`: adding a product whose line has no quantity sets it
   * to 1, so the effective quantity stays 1, while increasing that line makes it 2.
   */
  lemma AddOnAbsentQuantity(lines: seq<CartLine>, product: CartLine, k: nat)
    requires k < |lines| && lines[k].productId == product.productId && lines[k].quantity.None?
    ensures EffectiveQuantity(WithAdded(lines, product)[k]) == EffectiveQuantity(lines[k]) == 1
    ensures EffectiveQuantity(WithIncreased(lines, product.productId)[k]) == 2
  {
  }

  // ----- increaseQuantity -----

  /**
   * Same length, same ids in the same order; a matching line changes only in its quantity,
   * by one, and every other line stays.
   */
  lemma IncreaseRaises(lines: seq<CartLine>, id: int)
    ensures |WithIncreased(lines, id)| == |lines|
    ensures forall i :: 0 <= i < |lines| ==> WithIncreased(lines, id)[i].productId == lines[i].productId
    ensures forall i :: 0 <= i < |lines| && lines[i].productId == id ==>
      EffectiveQuantity(WithIncreased(lines, id)[i]) == EffectiveQuantity(lines[i]) + 1
    ensures forall i :: 0 <= i < |lines| && lines[i].productId == id ==>
      WithIncreased(lines, id)[i] == lines[i].(quantity := Some(EffectiveQuantity(lines[i]) + 1))
    ensures forall i :: 0 <= i < |lines| && lines[i].productId != id ==> WithIncreased(lines, id)[i] == lines[i]
  {
  }

  lemma IncreaseAbsentIsNoop(lines: seq<CartLine>, id: int)
    requires !HasProduct(lines, id)
    ensures WithIncreased(lines, id) == lines
  {
  }

  // ----- decreaseQuantity -----

  lemma DecreaseLeavesPositive(lines: seq<CartLine>, id: int)
    ensures PositiveQuantities(WithDecreased(lines, id))
  {
    var r := WithDecreased(lines, id);
    FilterSatisfies(Decremented(lines, id), HasPositiveQuantity);
    assert forall i :: 0 <= i < |r| ==> r[i] in r;
  }

  /** On an id not in the cart, decreasing changes nothing, provided all quantities are positive. */
  lemma DecreaseAbsentIsNoop(lines: seq<CartLine>, id: int)
    requires PositiveQuantities(lines) && !HasProduct(lines, id)
    ensures WithDecreased(lines, id) == lines
  {
    assert Decremented(lines, id) == lines;
    FilterAllKept(lines, HasPositiveQuantity);
  }

  /** The lines other than `k` keep their places when `k` is the only line with `id`. */
  lemma DecrementedAround(lines: seq<CartLine>, id: int, k: nat)
    requires UniqueIds(lines) && k < |lines| && lines[k].productId == id
    ensures Decremented(lines, id) == lines[..k] + [Decremented(lines, id)[k]] + lines[k + 1..]
  {
  }

  lemma PositiveMembers(lines: seq<CartLine>)
    requires PositiveQuantities(lines)
    ensures forall x :: x in lines ==> HasPositiveQuantity(x)
  {
  }

  /** A line at quantity 1 (or none) is removed, and the other lines stay as they were. */
  lemma DecreaseAtOneRemoves(lines: seq<CartLine>, id: int, k: nat)
    requires UniqueIds(lines) && PositiveQuantities(lines)
    requires k < |lines| && lines[k].productId == id && EffectiveQuantity(lines[k]) == 1
    ensures WithDecreased(lines, id) == lines[..k] + lines[k + 1..]
  {
    var m := Decremented(lines, id);
    var a, b := lines[..k], lines[k + 1..];
    DecrementedAround(lines, id, k);
    PositiveMembers(lines);
    assert forall x :: x in a ==> x in lines;
    assert forall x :: x in b ==> x in lines;
    FilterDropsOne(a, m[k], b, HasPositiveQuantity);
  }

  /** A line above quantity 1 is decremented in place. */
  lemma DecreaseAboveOneDecrements(lines: seq<CartLine>, id: int, k: nat)
    requires UniqueIds(lines) && PositiveQuantities(lines)
    requires k < |lines| && lines[k].productId == id && EffectiveQuantity(lines[k]) > 1
    ensures WithDecreased(lines, id) == lines[k := lines[k].(quantity := Some(EffectiveQuantity(lines[k]) - 1))]
  {
    var m := Decremented(lines, id);
    DecrementedAround(lines, id, k);
    FilterAllKept(m, HasPositiveQuantity);
    assert m == lines[k := lines[k].(quantity := Some(EffectiveQuantity(lines[k]) - 1))];
  }

  /** Decreasing twice from quantity 1: the first call removes the line, the second changes nothing. */
  lemma DecreaseTwiceFromOne(lines: seq<CartLine>, id: int, k: nat)
    requires UniqueIds(lines) && PositiveQuantities(lines)
    requires k < |lines| && lines[k].productId == id && EffectiveQuantity(lines[k]) == 1
    ensures !HasProduct(WithDecreased(lines, id), id)
    ensures WithDecreased(WithDecreased(lines, id), id) == WithDecreased(lines, id)
  {
    DecreaseAtOneRemoves(lines, id, k);
    var r := WithDecreased(lines, id);
    assert r == lines[..k] + lines[k + 1..];
    DecreaseLeavesPositive(lines, id);
    forall j | 0 <= j < |r|
      ensures r[j].productId != id
    {
      if j < k {
        assert r[j] == lines[j];
      } else {
        assert r[j] == lines[j + 1];
      }
    }
    DecreaseAbsentIsNoop(r, id);
  }

  lemma FilterKeepsUnique(lines: seq<CartLine>, p: CartLine -> bool)
    requires UniqueIds(lines)
    ensures UniqueIds(Filter(lines, p))
  {
    if lines != [] {
      FilterKeepsUnique(lines[1..], p);
      var rest := Filter(lines[1..], p);
      if p(lines[0]) {
        FilterMultiset(lines[1..], p);
        forall j | 0 <= j < |rest|
          ensures rest[j].productId != lines[0].productId
        {
          assert multiset(rest)[rest[j]] > 0;
          assert rest[j] in lines[1..];
        }
        var r := Filter(lines, p);
        assert r == [lines[0]] + rest;
        forall i, j | 0 <= i < j < |r|
          ensures r[i].productId != r[j].productId
        {
          if i > 0 {
            assert r[i] == rest[i - 1] && r[j] == rest[j - 1];
          } else {
            assert r[j] == rest[j - 1];
          }
        }
      }
    }
  }

  lemma DecreaseKeepsUnique(lines: seq<CartLine>, id: int)
    requires UniqueIds(lines)
    ensures UniqueIds(WithDecreased(lines, id))
  {
    FilterKeepsUnique(Decremented(lines, id), HasPositiveQuantity);
  }

  // ----- removeProduct, updateProduct -----

  /**
   * Removal drops every line with the id and keeps all the others, each as often as before and
   * in their relative order.
   */
  lemma RemoveSpec(lines: seq<CartLine>, id: int)
    ensures !HasProduct(WithoutProduct(lines, id), id)
    ensures IsSubsequence(WithoutProduct(lines, id), lines)
    ensures forall x ::
      multiset(WithoutProduct(lines, id))[x] == if x.productId == id then 0 else multiset(lines)[x]
  {
    var r := WithoutProduct(lines, id);
    FilterSatisfies(lines, OtherThan(id));
    FilterIsSubsequence(lines, OtherThan(id));
    FilterMultiset(lines, OtherThan(id));
    assert forall i :: 0 <= i < |r| ==> r[i] in r;
  }

  lemma RemoveKeepsInvariants(lines: seq<CartLine>, id: int)
    ensures UniqueIds(lines) ==> UniqueIds(WithoutProduct(lines, id))
    ensures PositiveQuantities(lines) ==> PositiveQuantities(WithoutProduct(lines, id))
  {
    var r := WithoutProduct(lines, id);
    if UniqueIds(lines) {
      FilterKeepsUnique(lines, OtherThan(id));
    }
    FilterMultiset(lines, OtherThan(id));
    forall i | 0 <= i < |r|
      ensures r[i] in lines
    {
      assert multiset(r)[r[i]] > 0;
    }
  }

  lemma RemoveAbsentIsNoop(lines: seq<CartLine>, id: int)
    requires !HasProduct(lines, id)
    ensures WithoutProduct(lines, id) == lines
  {
    FilterAllKept(lines, OtherThan(id));
  }

  /** Only the given fields of the matching lines are overwritten; every other line stays. */
  lemma UpdateSpec(lines: seq<CartLine>, id: int, patch: LinePatch)
    ensures |WithUpdated(lines, id, patch)| == |lines|
    ensures forall i :: 0 <= i < |lines| && lines[i].productId != id ==> WithUpdated(lines, id, patch)[i] == lines[i]
    ensures forall i :: 0 <= i < |lines| && lines[i].productId == id ==>
      var u := WithUpdated(lines, id, patch)[i];
      && (patch.productId.Some? ==> u.productId == patch.productId.value)
      && (patch.productName.Some? ==> u.productName == patch.productName.value)
      && (patch.imageUrl.Some? ==> u.imageUrl == patch.imageUrl.value)
      && (patch.unitPrice.Some? ==> u.unitPrice == patch.unitPrice)
      && (patch.storeId.Some? ==> u.storeId == patch.storeId.value)
      && (patch.categoryId.Some? ==> u.categoryId == patch.categoryId.value)
      && (patch.quantity.Some? ==> u.quantity == patch.quantity)
    ensures forall i :: 0 <= i < |lines| && lines[i].productId == id ==>
      var u := WithUpdated(lines, id, patch)[i];
      && (patch.productId.None? ==> u.productId == lines[i].productId)
      && (patch.productName.None? ==> u.productName == lines[i].productName)
      && (patch.imageUrl.None? ==> u.imageUrl == lines[i].imageUrl)
      && (patch.unitPrice.None? ==> u.unitPrice == lines[i].unitPrice)
      && (patch.storeId.None? ==> u.storeId == lines[i].storeId)
      && (patch.categoryId.None? ==> u.categoryId == lines[i].categoryId)
      && (patch.quantity.None? ==> u.quantity == lines[i].quantity)
    ensures forall i :: 0 <= i < |lines| && lines[i].productId == id ==>
      (patch == LinePatch(None, None, None, None, None, None, None) ==> WithUpdated(lines, id, patch)[i] == lines[i])
  {
  }

  /** An update keeps ids unique unless it moves the line onto another line's id. */
  lemma UpdateKeepsUnique(lines: seq<CartLine>, id: int, patch: LinePatch)
    requires UniqueIds(lines)
    requires patch.productId.None? || patch.productId == Some(id) || !HasProduct(lines, patch.productId.value)
    ensures UniqueIds(WithUpdated(lines, id, patch))
  {
    var r := WithUpdated(lines, id, patch);
    forall i, j | 0 <= i < j < |r|
      ensures r[i].productId != r[j].productId
    {
      if lines[i].productId == id || lines[j].productId == id {
        if patch.productId.Some? && patch.productId != Some(id) {
          assert lines[i].productId != patch.productId.value;
          assert lines[j].productId != patch.productId.value;
        }
      }
    }
  }

  lemma UpdateKeepsPositive(lines: seq<CartLine>, id: int, patch: LinePatch)
    requires PositiveQuantities(lines)
    requires patch.quantity.None? || patch.quantity.value > 0
    ensures PositiveQuantities(WithUpdated(lines, id, patch))
  {
  }
}
