/** Catalog reference data of the transfer form: branches, branch-scoped stock
    lines, the products offered for the chosen origin branch and the stock
    available for the chosen product. */
module Catalog {
  import opened JsNumber

  datatype Branch = Branch(id: int, name: string)

  /** One stock line: the on-hand quantity of a product at one branch. */
  datatype Product = Product(
    branchId: int,
    productId: int,
    productName: string,
    quantity: int,
    branchName: string)

  /** Strict equality of a stored id with a coerced form value; NaN equals nothing. */
  predicate IdIs(id: int, coerced: Option<int>) {
    coerced == Some(id)
  }

  /** The stock lines whose branch equals `origin`, in catalog order. */
  function FilterBranch(products: seq<Product>, origin: Option<int>): (r: seq<Product>)
    ensures |r| <= |products|
    ensures forall p :: p in r <==> p in products && IdIs(p.branchId, origin)
    ensures forall p :: multiset(r)[p] == if IdIs(p.branchId, origin) then multiset(products)[p] else 0
  {
    if |products| == 0 then []
    else
      assert products == [products[0]] + products[1..];
      var rest := FilterBranch(products[1..], origin);
      if IdIs(products[0].branchId, origin) then [products[0]] + rest else rest
  }

  /** Products offered for the origin selection `origem` (a form string). */
  function ProductsAtBranch(products: seq<Product>, origem: string): (r: seq<Product>)
    ensures forall p :: p in r <==> p in products && IdIs(p.branchId, Number(origem))
    ensures Number(origem).None? ==> r == []
  {
    FilterBranch(products, Number(origem))
  }

  /** Index of the first stock line for `productId`, if any. */
  function FirstWithProduct(products: seq<Product>, productId: Option<int>): (r: Option<nat>)
    ensures r.Some? ==> r.value < |products| && IdIs(products[r.value].productId, productId)
    ensures r.Some? ==> forall j :: 0 <= j < r.value ==> !IdIs(products[j].productId, productId)
    ensures r.None? ==> forall j :: 0 <= j < |products| ==> !IdIs(products[j].productId, productId)
  {
    if |products| == 0 then None
    else if IdIs(products[0].productId, productId) then Some(0)
    else
      match FirstWithProduct(products[1..], productId)
      case None => None
      case Some(k) => Some(k + 1)
  }

  /** Quantity of the first line carrying `productId`, if any. */
  function QuantityOf(lines: seq<Product>, productId: Option<int>): Option<int> {
    match FirstWithProduct(lines, productId)
    case None => None
    case Some(i) => Some(lines[i].quantity)
  }

  /** Stock available for the product selection `produto` among the filtered
      lines: the quantity of the first match, or null when nothing matches. */
  function AvailableQuantity(filtered: seq<Product>, produto: string): (r: Option<int>)
    ensures r.None? <==> forall j :: 0 <= j < |filtered| ==> !IdIs(filtered[j].productId, Number(produto))
    ensures r.Some? ==>
      exists i :: (0 <= i < |filtered| && IdIs(filtered[i].productId, Number(produto))
                   && r.value == filtered[i].quantity
                   && forall j :: 0 <= j < i ==> !IdIs(filtered[j].productId, Number(produto)))
  {
    QuantityOf(filtered, Number(produto))
  }

  /** Reference for the two-stage lookup: one pass over the whole catalog for
      the first line at the origin branch carrying the product. */
  function FirstAtBranch(products: seq<Product>, origin: Option<int>, productId: Option<int>): Option<int> {
    if |products| == 0 then None
    else if IdIs(products[0].branchId, origin) && IdIs(products[0].productId, productId) then Some(products[0].quantity)
    else FirstAtBranch(products[1..], origin, productId)
  }

  /** Filtering distributes over concatenation, so it keeps catalog order. */
  lemma {:induction false} FilterBranchAppend(xs: seq<Product>, ys: seq<Product>, origin: Option<int>)
    ensures FilterBranch(xs + ys, origin) == FilterBranch(xs, origin) + FilterBranch(ys, origin)
  {
    if |xs| > 0 {
      assert (xs + ys)[1..] == xs[1..] + ys;
      FilterBranchAppend(xs[1..], ys, origin);
    } else {
      assert xs + ys == ys;
    }
  }

  /** Re-filtering the filtered list by the same origin changes nothing. */
  lemma {:induction false} FilterBranchIdempotent(products: seq<Product>, origin: Option<int>)
    ensures FilterBranch(FilterBranch(products, origin), origin) == FilterBranch(products, origin)
  {
    if |products| > 0 {
      FilterBranchIdempotent(products[1..], origin);
      var rest := FilterBranch(products[1..], origin);
      if IdIs(products[0].branchId, origin) {
        assert ([products[0]] + rest)[1..] == rest;
      }
    }
  }

  /** The available quantity the form computes from its two derived views is
      the quantity of the first catalog line at the origin carrying the product. */
  lemma AvailableIsFirstAtBranch(products: seq<Product>, origem: string, produto: string)
    ensures AvailableQuantity(ProductsAtBranch(products, origem), produto)
         == FirstAtBranch(products, Number(origem), Number(produto))
  {
    FilterFindCommute(products, Number(origem), Number(produto));
  }

  lemma QuantityOfCons(lines: seq<Product>, productId: Option<int>)
    requires |lines| > 0
    ensures QuantityOf(lines, productId)
         == if IdIs(lines[0].productId, productId) then Some(lines[0].quantity) else QuantityOf(lines[1..], productId)
  {
    if !IdIs(lines[0].productId, productId) {
      match FirstWithProduct(lines[1..], productId)
      case None =>
      case Some(k) => assert lines[k + 1] == lines[1..][k];
    }
  }

  lemma {:induction false} FilterFindCommute(products: seq<Product>, origin: Option<int>, productId: Option<int>)
    ensures QuantityOf(FilterBranch(products, origin), productId) == FirstAtBranch(products, origin, productId)
  {
    if |products| > 0 {
      FilterFindCommute(products[1..], origin, productId);
      var rest := FilterBranch(products[1..], origin);
      if IdIs(products[0].branchId, origin) {
        var f := [products[0]] + rest;
        assert FilterBranch(products, origin) == f;
        assert f[1..] == rest;
        QuantityOfCons(f, productId);
      } else {
        assert FilterBranch(products, origin) == rest;
      }
    }
  }

  /** Worked example: branch 1 holds 5 units of product 42. */
  lemma AvailableQuantityExample()
    ensures AvailableQuantity(
              ProductsAtBranch([Product(2, 42, "Item", 9, "B"), Product(1, 42, "Item", 5, "A")], "1"),
              "42") == Some(5)
    ensures AvailableQuantity(ProductsAtBranch([Product(1, 42, "Item", 5, "A")], "1"), "7") == None
  {
    assert Number("1") == Some(1) by { NumberOfIntToString(1); }
    assert Number("42") == Some(42) by { NumberOfIntToString(42); }
    assert Number("7") == Some(7) by { NumberOfIntToString(7); }
  }
}
