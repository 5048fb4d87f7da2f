/** The cart engine: an ordered list of lines, one per product id, with
    merge-on-add, filter-on-remove, set-or-remove quantity updates and two
    aggregate folds. The list operations are functions over `seq<CartItem>`
    (each one is the `find`/`map`/`filter` the context hands to its state
    setter); `CartStore` is the state cell those setters replace. */
module CartContext {
  import opened Types

  /** Index of the first line for product `id` (`Array.prototype.find`). */
  function FindLine(lines: seq<CartItem>, id: string): (r: Option<nat>)
    ensures r.Some? ==> r.value < |lines| && lines[r.value].product.id == id
    ensures r.Some? ==> forall j :: 0 <= j < r.value ==> lines[j].product.id != id
    ensures r.None? <==> forall j :: 0 <= j < |lines| ==> lines[j].product.id != id
  {
    if |lines| == 0 then None
    else if lines[0].product.id == id then Some(0)
    else match FindLine(lines[1..], id)
      case Some(k) => Some(k + 1)
      case None => None
  }

  predicate HasLine(lines: seq<CartItem>, id: string) {
    FindLine(lines, id).Some?
  }

  /** No two lines share a product id. */
  predicate Unique(lines: seq<CartItem>) {
    forall i, j :: 0 <= i < j < |lines| ==> lines[i].product.id != lines[j].product.id
  }

  /** Every line has a positive quantity. */
  predicate AllPositive(lines: seq<CartItem>) {
    forall i :: 0 <= i < |lines| ==> lines[i].quantity > 0
  }

  /** The merge branch of add: every line for `id` gets `amount` more. */
  function Merged(lines: seq<CartItem>, id: string, amount: int): (r: seq<CartItem>)
    ensures |r| == |lines|
    ensures forall i :: 0 <= i < |lines| ==>
      r[i] == if lines[i].product.id == id then lines[i].(quantity := lines[i].quantity + amount) else lines[i]
  {
    if |lines| == 0 then []
    else
      var head := if lines[0].product.id == id then lines[0].(quantity := lines[0].quantity + amount) else lines[0];
      [head] + Merged(lines[1..], id, amount)
  }

  /** The in-place branch of update: every line for `id` gets quantity `quantity`. */
  function WithQuantity(lines: seq<CartItem>, id: string, quantity: int): (r: seq<CartItem>)
    ensures |r| == |lines|
    ensures forall i :: 0 <= i < |lines| ==>
      r[i] == if lines[i].product.id == id then lines[i].(quantity := quantity) else lines[i]
  {
    if |lines| == 0 then []
    else
      var head := if lines[0].product.id == id then lines[0].(quantity := quantity) else lines[0];
      [head] + WithQuantity(lines[1..], id, quantity)
  }

  /** Remove: the lines whose product id is not `id`, in their order. */
  function Without(lines: seq<CartItem>, id: string): (r: seq<CartItem>)
    ensures |r| <= |lines|
    ensures forall i :: 0 <= i < |r| ==> r[i].product.id != id
  {
    if |lines| == 0 then []
    else if lines[0].product.id == id then Without(lines[1..], id)
    else [lines[0]] + Without(lines[1..], id)
  }

  /** Add: merge into an existing line for the product, or append a new one.
      Either way the product has a line afterwards, and a line is added
      only when it had none. */
  function Added(lines: seq<CartItem>, product: Product, amount: int): (r: seq<CartItem>)
    ensures HasLine(r, product.id)
    ensures |r| == if HasLine(lines, product.id) then |lines| else |lines| + 1
  {
    if HasLine(lines, product.id) then Merged(lines, product.id, amount)
    else
      var r := lines + [CartItem(product, amount)];
      assert r[|lines|].product.id == product.id;
      r
  }

  /** Update: a non-positive quantity removes the line, any other is set in
      place, so the product keeps a line exactly when it had one and the
      quantity is positive. */
  function Updated(lines: seq<CartItem>, id: string, quantity: int): (r: seq<CartItem>)
    ensures HasLine(r, id) <==> quantity > 0 && HasLine(lines, id)
    ensures quantity > 0 ==> |r| == |lines|
  {
    if quantity <= 0 then Without(lines, id) else WithQuantity(lines, id, quantity)
  }

  /** Sum of quantities (a left fold from 0). */
  function TotalItems(lines: seq<CartItem>): int {
    if |lines| == 0 then 0 else TotalItems(lines[..|lines| - 1]) + lines[|lines| - 1].quantity
  }

  /** Price of one line, from the product snapshot held in the line. */
  function LineTotal(line: CartItem): int {
    line.product.price * line.quantity
  }

  /** Sum of line totals (a left fold from 0). */
  function TotalPrice(lines: seq<CartItem>): int {
    if |lines| == 0 then 0 else TotalPrice(lines[..|lines| - 1]) + LineTotal(lines[|lines| - 1])
  }

  // ---------------------------------------------------------------------
  // Totals

  /** With positive quantities the item count is at least the number of lines. */
  lemma {:induction false} TotalItemsAtLeastLines(lines: seq<CartItem>)
    requires AllPositive(lines)
    ensures TotalItems(lines) >= |lines|
  {
    if |lines| > 0 {
      var m := |lines| - 1;
      assert forall i :: 0 <= i < m ==> lines[..m][i] == lines[i];
      TotalItemsAtLeastLines(lines[..m]);
    }
  }

  /** The price total is never negative when no price and no quantity is. */
  lemma {:induction false} TotalPriceNonNegative(lines: seq<CartItem>)
    requires forall i :: 0 <= i < |lines| ==> lines[i].product.price >= 0 && lines[i].quantity >= 0
    ensures TotalPrice(lines) >= 0
  {
    if |lines| > 0 {
      var m := |lines| - 1;
      assert forall i :: 0 <= i < m ==> lines[..m][i] == lines[i];
      TotalPriceNonNegative(lines[..m]);
      assert LineTotal(lines[m]) >= 0;
    }
  }

  /** Both totals distribute over concatenation of carts. */
  lemma {:induction false} TotalsConcat(a: seq<CartItem>, b: seq<CartItem>)
    ensures TotalItems(a + b) == TotalItems(a) + TotalItems(b)
    ensures TotalPrice(a + b) == TotalPrice(a) + TotalPrice(b)
    decreases |b|
  {
    if |b| == 0 {
      assert a + b == a;
    } else {
      var b' := b[..|b| - 1];
      assert (a + b)[..|a + b| - 1] == a + b';
      assert (a + b)[|a + b| - 1] == b[|b| - 1];
      TotalsConcat(a, b');
    }
  }

  /** Totals of a cart with one line singled out. */
  lemma TotalsSplit(lines: seq<CartItem>, k: nat)
    requires k < |lines|
    ensures TotalItems(lines) == TotalItems(lines[..k]) + lines[k].quantity + TotalItems(lines[k + 1..])
    ensures TotalPrice(lines) == TotalPrice(lines[..k]) + LineTotal(lines[k]) + TotalPrice(lines[k + 1..])
  {
    assert lines == lines[..k] + [lines[k]] + lines[k + 1..];
    TotalsConcat(lines[..k] + [lines[k]], lines[k + 1..]);
    TotalsConcat(lines[..k], [lines[k]]);
  }

  /** The worked example: lines (100, qty 2) and (50, qty 1) give 3 items and 250. */
  lemma TotalsExample(a: Product, b: Product)
    requires a.price == 100 && b.price == 50
    ensures TotalItems([CartItem(a, 2), CartItem(b, 1)]) == 3
    ensures TotalPrice([CartItem(a, 2), CartItem(b, 1)]) == 250
  {
    var first := [CartItem(a, 2)];
    assert [CartItem(a, 2), CartItem(b, 1)][..1] == first;
    assert first[..0] == [];
    assert TotalItems(first) == 2 && TotalPrice(first) == 200;
  }

  /** Two carts that differ only in line `k` differ in their totals by that line. */
  lemma TotalsReplaceAt(a: seq<CartItem>, b: seq<CartItem>, k: nat)
    requires |a| == |b| && k < |a|
    requires a[..k] == b[..k] && a[k + 1..] == b[k + 1..]
    ensures TotalItems(b) == TotalItems(a) - a[k].quantity + b[k].quantity
    ensures TotalPrice(b) == TotalPrice(a) - LineTotal(a[k]) + LineTotal(b[k])
  {
    TotalsSplit(a, k);
    TotalsSplit(b, k);
  }

  /** In a cart with unique ids, the line at `k` is the one found for its id. */
  lemma FindLineAt(lines: seq<CartItem>, k: nat)
    requires Unique(lines) && k < |lines|
    ensures FindLine(lines, lines[k].product.id) == Some(k)
  {
  }

  // ---------------------------------------------------------------------
  // addToCart

  /** Adding a product that has a line raises that line by `amount`, keeps
      its product snapshot, adds no line and changes no other line. */
  lemma AddedExisting(lines: seq<CartItem>, product: Product, amount: int)
    requires Unique(lines) && HasLine(lines, product.id)
    ensures var k := FindLine(lines, product.id).value;
      var r := Added(lines, product, amount);
      && |r| == |lines|
      && r[k] == CartItem(lines[k].product, lines[k].quantity + amount)
      && forall i :: 0 <= i < |lines| && i != k ==> r[i] == lines[i]
  {
  }

  /** Adding a product without a line appends exactly `{product, amount}`. */
  lemma AddedNew(lines: seq<CartItem>, product: Product, amount: int)
    requires !HasLine(lines, product.id)
    ensures Added(lines, product, amount) == lines + [CartItem(product, amount)]
  {
  }

  lemma AddedKeepsUnique(lines: seq<CartItem>, product: Product, amount: int)
    requires Unique(lines)
    ensures Unique(Added(lines, product, amount))
  {
  }

  lemma AddedKeepsPositive(lines: seq<CartItem>, product: Product, amount: int)
    requires AllPositive(lines) && amount > 0
    ensures AllPositive(Added(lines, product, amount))
  {
  }

  /** Merging into a cart with no line for `id` changes nothing. */
  lemma MergedAbsent(lines: seq<CartItem>, id: string, amount: int)
    requires !HasLine(lines, id)
    ensures Merged(lines, id, amount) == lines
  {
  }

  /** Adding raises the item count by `amount`, and the price total by
      `amount` times the price captured in the line (the existing line's
      snapshot when the product is already in the cart). */
  lemma {:induction false} AddedTotals(lines: seq<CartItem>, product: Product, amount: int)
    requires Unique(lines)
    ensures var price := if HasLine(lines, product.id)
                         then lines[FindLine(lines, product.id).value].product.price
                         else product.price;
      && TotalItems(Added(lines, product, amount)) == TotalItems(lines) + amount
      && TotalPrice(Added(lines, product, amount)) == TotalPrice(lines) + price * amount
  {
    if HasLine(lines, product.id) {
      var k := FindLine(lines, product.id).value;
      AddedExisting(lines, product, amount);
      MergedTotals(lines, Added(lines, product, amount), k, amount);
    } else {
      TotalsConcat(lines, [CartItem(product, amount)]);
    }
  }

  lemma MergedTotals(lines: seq<CartItem>, r: seq<CartItem>, k: nat, amount: int)
    requires |r| == |lines| && k < |lines|
    requires r[k] == CartItem(lines[k].product, lines[k].quantity + amount)
    requires forall i :: 0 <= i < |lines| && i != k ==> r[i] == lines[i]
    ensures TotalItems(r) == TotalItems(lines) + amount
    ensures TotalPrice(r) == TotalPrice(lines) + lines[k].product.price * amount
  {
    var p, q := lines[k].product.price, lines[k].quantity;
    assert LineTotal(r[k]) == LineTotal(lines[k]) + p * amount by {
      assert p * (q + amount) == p * q + p * amount;
    }
    assert r[..k] == lines[..k];
    assert r[k + 1..] == lines[k + 1..];
    TotalsReplaceAt(lines, r, k);
  }

  /** Adding the same new product twice leaves one line with the summed quantity. */
  lemma AddedTwice(lines: seq<CartItem>, product: Product, n: int, m: int)
    requires !HasLine(lines, product.id)
    ensures Added(Added(lines, product, n), product, m) == lines + [CartItem(product, n + m)]
  {
    var id := product.id;
    var once := lines + [CartItem(product, n)];
    var expected := lines + [CartItem(product, n + m)];
    AddedNew(lines, product, n);
    assert once[|lines|].product.id == id;
    assert HasLine(once, id);
    var twice := Merged(once, id, m);
    assert Added(once, product, m) == twice;
    forall i | 0 <= i < |once|
      ensures twice[i] == expected[i]
    {
      if i < |lines| {
        assert once[i] == lines[i] && expected[i] == lines[i];
        assert lines[i].product.id != id;
      }
    }
    assert twice == expected;
  }

  /** Successive adds of pairwise distinct new products. */
  function AddAll(lines: seq<CartItem>, adds: seq<CartItem>): seq<CartItem>
    decreases |adds|
  {
    if |adds| == 0 then lines else AddAll(Added(lines, adds[0].product, adds[0].quantity), adds[1..])
  }

  /** Adding distinct products that are not yet in the cart (so that the
      lines and the adds together have unique ids) appends one line per
      product, so the item count grows by the sum of the amounts. */
  lemma {:induction false} AddAllDistinct(lines: seq<CartItem>, adds: seq<CartItem>)
    requires Unique(lines + adds)
    ensures AddAll(lines, adds) == lines + adds
    ensures TotalItems(AddAll(lines, adds)) == TotalItems(lines) + TotalItems(adds)
    decreases |adds|
  {
    if |adds| == 0 {
      assert lines + adds == lines;
    } else {
      var next := lines + [adds[0]];
      assert next + adds[1..] == lines + adds;
      forall j | 0 <= j < |lines|
        ensures lines[j].product.id != adds[0].product.id
      {
        assert (lines + adds)[j] == lines[j] && (lines + adds)[|lines|] == adds[0];
      }
      AddedNew(lines, adds[0].product, adds[0].quantity);
      AddAllDistinct(next, adds[1..]);
    }
    TotalsConcat(lines, adds);
  }

  // ---------------------------------------------------------------------
  // removeFromCart

  lemma UniqueTail(lines: seq<CartItem>)
    requires Unique(lines) && |lines| > 0
    ensures Unique(lines[1..])
  {
    forall i, j | 0 <= i < j < |lines[1..]|
      ensures lines[1..][i].product.id != lines[1..][j].product.id
    {
      assert lines[1..][i] == lines[i + 1] && lines[1..][j] == lines[j + 1];
    }
  }

  /** The removal keeps exactly the lines with other ids. */
  lemma {:induction false} WithoutMembers(lines: seq<CartItem>, id: string)
    ensures forall x :: x in Without(lines, id) <==> x in lines && x.product.id != id
  {
    if |lines| > 0 {
      WithoutMembers(lines[1..], id);
      assert lines == [lines[0]] + lines[1..];
    }
  }

  lemma {:induction false} WithoutAbsent(lines: seq<CartItem>, id: string)
    requires !HasLine(lines, id)
    ensures Without(lines, id) == lines
  {
    if |lines| > 0 {
      assert lines[0].product.id != id;
      assert !HasLine(lines[1..], id);
      WithoutAbsent(lines[1..], id);
      assert lines == [lines[0]] + lines[1..];
    }
  }

  /** Removal distributes over concatenation. */
  lemma {:induction false} WithoutConcat(a: seq<CartItem>, b: seq<CartItem>, id: string)
    ensures Without(a + b, id) == Without(a, id) + Without(b, id)
    decreases |a|
  {
    if |a| == 0 {
      assert a + b == b;
    } else {
      assert (a + b)[0] == a[0];
      assert (a + b)[1..] == a[1..] + b;
      WithoutConcat(a[1..], b, id);
    }
  }

  /** Removing the product of line `k`, when no other line has it, leaves
      the lines before and after `k`. */
  lemma WithoutAt(lines: seq<CartItem>, id: string, k: nat)
    requires k < |lines| && lines[k].product.id == id
    requires forall j :: 0 <= j < |lines| && j != k ==> lines[j].product.id != id
    ensures Without(lines, id) == lines[..k] + lines[k + 1..]
  {
    var before, line, after := lines[..k], [lines[k]], lines[k + 1..];
    assert !HasLine(before, id) by {
      forall j | 0 <= j < |before|
        ensures before[j].product.id != id
      {
        assert before[j] == lines[j];
      }
    }
    assert !HasLine(after, id) by {
      forall j | 0 <= j < |after|
        ensures after[j].product.id != id
      {
        assert after[j] == lines[k + 1 + j];
      }
    }
    assert Without(line, id) == [] by {
      assert line[1..] == [];
    }
    WithoutAbsent(before, id);
    WithoutAbsent(after, id);
    WithoutConcat(before + line, after, id);
    WithoutConcat(before, line, id);
    calc {
      Without(lines, id);
      { assert lines == before + line + after; }
      Without(before + line + after, id);
      Without(before + line, id) + Without(after, id);
      Without(before, id) + Without(line, id) + Without(after, id);
      before + [] + after;
      { assert before + [] == before; }
      before + after;
    }
  }

  /** Removing a present product drops exactly its line and keeps the rest in order. */
  lemma WithoutPresent(lines: seq<CartItem>, id: string)
    requires Unique(lines) && HasLine(lines, id)
    ensures var k := FindLine(lines, id).value;
      Without(lines, id) == lines[..k] + lines[k + 1..]
  {
    var k := FindLine(lines, id).value;
    forall j | 0 <= j < |lines| && j != k
      ensures lines[j].product.id != id
    {
      if j < k {
        assert lines[j].product.id != lines[k].product.id;
      } else {
        assert lines[k].product.id != lines[j].product.id;
      }
    }
    WithoutAt(lines, id, k);
  }

  /** A cart with a product removed has no line for it; the others are kept in order. */
  lemma WithoutSpec(lines: seq<CartItem>, id: string)
    requires Unique(lines)
    ensures !HasLine(Without(lines, id), id)
    ensures !HasLine(lines, id) ==> Without(lines, id) == lines
    ensures HasLine(lines, id) ==> var k := FindLine(lines, id).value;
      Without(lines, id) == lines[..k] + lines[k + 1..]
  {
    if HasLine(lines, id) {
      WithoutPresent(lines, id);
    } else {
      WithoutAbsent(lines, id);
    }
  }

  lemma {:induction false} WithoutKeepsUnique(lines: seq<CartItem>, id: string)
    requires Unique(lines)
    ensures Unique(Without(lines, id))
  {
    if |lines| > 0 {
      UniqueTail(lines);
      WithoutKeepsUnique(lines[1..], id);
      WithoutMembers(lines[1..], id);
      var rest := Without(lines[1..], id);
      if lines[0].product.id != id {
        forall j | 0 <= j < |rest|
          ensures lines[0].product.id != rest[j].product.id
        {
          assert rest[j] in lines[1..];
        }
        var r := [lines[0]] + rest;
        forall i, j | 0 <= i < j < |r|
          ensures r[i].product.id != r[j].product.id
        {
          if i > 0 {
            assert r[i] == rest[i - 1] && r[j] == rest[j - 1];
          } else {
            assert r[j] == rest[j - 1];
          }
        }
      }
    }
  }

  lemma WithoutKeepsPositive(lines: seq<CartItem>, id: string)
    requires AllPositive(lines)
    ensures AllPositive(Without(lines, id))
  {
    var r := Without(lines, id);
    WithoutMembers(lines, id);
    forall i | 0 <= i < |r|
      ensures r[i].quantity > 0
    {
      assert r[i] in lines;
    }
  }

  /** Removing a product lowers the totals by exactly its line. */
  lemma WithoutTotals(lines: seq<CartItem>, id: string)
    requires Unique(lines) && HasLine(lines, id)
    ensures var k := FindLine(lines, id).value;
      && TotalItems(Without(lines, id)) == TotalItems(lines) - lines[k].quantity
      && TotalPrice(Without(lines, id)) == TotalPrice(lines) - LineTotal(lines[k])
  {
    var k := FindLine(lines, id).value;
    WithoutPresent(lines, id);
    TotalsSplit(lines, k);
    TotalsConcat(lines[..k], lines[k + 1..]);
  }

  // ---------------------------------------------------------------------
  // updateQuantity

  /** A non-positive quantity is exactly removal. */
  lemma UpdatedNonPositive(lines: seq<CartItem>, id: string, quantity: int)
    requires quantity <= 0
    ensures Updated(lines, id, quantity) == Without(lines, id)
  {
  }

  /** A positive quantity replaces only the matching line's quantity. */
  lemma UpdatedPositive(lines: seq<CartItem>, id: string, quantity: int)
    requires Unique(lines) && HasLine(lines, id) && quantity > 0
    ensures var k := FindLine(lines, id).value;
      var r := Updated(lines, id, quantity);
      && |r| == |lines|
      && r[k] == CartItem(lines[k].product, quantity)
      && forall i :: 0 <= i < |lines| && i != k ==> r[i] == lines[i]
  {
  }

  /** Updating an unknown product is a no-op, whatever the quantity. */
  lemma UpdatedAbsent(lines: seq<CartItem>, id: string, quantity: int)
    requires !HasLine(lines, id)
    ensures Updated(lines, id, quantity) == lines
  {
    if quantity <= 0 {
      WithoutAbsent(lines, id);
    } else {
      var r := WithQuantity(lines, id, quantity);
      assert forall i :: 0 <= i < |lines| ==> r[i] == lines[i];
    }
  }

  lemma UpdatedKeepsUnique(lines: seq<CartItem>, id: string, quantity: int)
    requires Unique(lines)
    ensures Unique(Updated(lines, id, quantity))
  {
    if quantity <= 0 {
      WithoutKeepsUnique(lines, id);
    }
  }

  /** Positivity survives any update: the removal rule catches the
      non-positive quantities. */
  lemma UpdatedKeepsPositive(lines: seq<CartItem>, id: string, quantity: int)
    requires AllPositive(lines)
    ensures AllPositive(Updated(lines, id, quantity))
  {
    if quantity <= 0 {
      WithoutKeepsPositive(lines, id);
    }
  }

  /** A positive update moves the totals by the change in that one line. */
  lemma UpdatedTotals(lines: seq<CartItem>, id: string, quantity: int)
    requires Unique(lines) && HasLine(lines, id) && quantity > 0
    ensures var k := FindLine(lines, id).value;
      && TotalItems(Updated(lines, id, quantity)) == TotalItems(lines) - lines[k].quantity + quantity
      && TotalPrice(Updated(lines, id, quantity)) == TotalPrice(lines) - LineTotal(lines[k]) + lines[k].product.price * quantity
  {
    var k := FindLine(lines, id).value;
    var r := Updated(lines, id, quantity);
    UpdatedPositive(lines, id, quantity);
    assert r[..k] == lines[..k] by {
      forall i | 0 <= i < k
        ensures r[..k][i] == lines[..k][i]
      {
        assert r[i] == lines[i];
      }
    }
    var rest, oldRest := r[k + 1..], lines[k + 1..];
    assert rest == oldRest by {
      forall i | 0 <= i < |rest|
        ensures rest[i] == oldRest[i]
      {
        assert rest[i] == r[k + 1 + i] && oldRest[i] == lines[k + 1 + i];
      }
    }
    TotalsReplaceAt(lines, r, k);
  }

  // ---------------------------------------------------------------------
  // The state cell

  /** The context's `items` state; each operation replaces it. */
  class CartStore {
    var items: seq<CartItem>

    constructor ()
      ensures items == []
    {
      items := [];
    }

    /** `merged` tells which branch ran (the caller shows a different message). */
    method AddToCart(product: Product, quantity: int := 1) returns (merged: bool)
      modifies this
      ensures merged == HasLine(old(items), product.id)
      ensures items == Added(old(items), product, quantity)
      ensures !merged ==> items == old(items) + [CartItem(product, quantity)]
      ensures merged && Unique(old(items)) ==>
        var k := FindLine(old(items), product.id).value;
        && |items| == |old(items)|
        && items[k] == CartItem(old(items)[k].product, old(items)[k].quantity + quantity)
        && forall i :: 0 <= i < |items| && i != k ==> items[i] == old(items)[i]
      ensures Unique(old(items)) ==> Unique(items)
      ensures AllPositive(old(items)) && quantity > 0 ==> AllPositive(items)
    {
      merged := HasLine(items, product.id);
      if Unique(items) {
        AddedKeepsUnique(items, product, quantity);
        if merged {
          AddedExisting(items, product, quantity);
        }
      }
      if AllPositive(items) && quantity > 0 {
        AddedKeepsPositive(items, product, quantity);
      }
      items := Added(items, product, quantity);
    }

    method RemoveFromCart(productId: string)
      modifies this
      ensures items == Without(old(items), productId)
      ensures !HasLine(items, productId)
      ensures !HasLine(old(items), productId) ==> items == old(items)
      ensures Unique(old(items)) && HasLine(old(items), productId) ==>
        var k := FindLine(old(items), productId).value;
        items == old(items)[..k] + old(items)[k + 1..]
      ensures Unique(old(items)) ==> Unique(items)
      ensures AllPositive(old(items)) ==> AllPositive(items)
    {
      if HasLine(items, productId) {
        if Unique(items) {
          WithoutPresent(items, productId);
        }
      } else {
        WithoutAbsent(items, productId);
      }
      if Unique(items) {
        WithoutKeepsUnique(items, productId);
      }
      if AllPositive(items) {
        WithoutKeepsPositive(items, productId);
      }
      items := Without(items, productId);
    }

    method UpdateQuantity(productId: string, quantity: int)
      modifies this
      ensures items == Updated(old(items), productId, quantity)
      ensures quantity <= 0 ==> items == Without(old(items), productId)
      ensures quantity > 0 ==> |items| == |old(items)|
      ensures quantity > 0 ==> forall i :: 0 <= i < |items| ==>
        items[i] == if old(items)[i].product.id == productId then old(items)[i].(quantity := quantity) else old(items)[i]
      ensures !HasLine(old(items), productId) ==> items == old(items)
      ensures Unique(old(items)) ==> Unique(items)
      ensures AllPositive(old(items)) ==> AllPositive(items)
    {
      if quantity <= 0 {
        RemoveFromCart(productId);
        return;
      }
      if !HasLine(items, productId) {
        UpdatedAbsent(items, productId, quantity);
      }
      if AllPositive(items) {
        UpdatedKeepsPositive(items, productId, quantity);
      }
      items := WithQuantity(items, productId, quantity);
    }

    method ClearCart()
      modifies this
      ensures items == []
      ensures TotalItems(items) == 0 && TotalPrice(items) == 0
    {
      items := [];
    }
  }
}
