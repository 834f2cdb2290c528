/** The purchase summary of main.js: the subtotal `reduce`, the IVA (value
    added tax) and the total shown beside the cart, and the amount the
    checkout charges. */
module Totals {
  import opened Catalog

  /** IVA_PORCENTAJE: the tax rate applied to the whole subtotal. */
  const IVA: real := 0.21

  /** `cart.reduce((acc, item) => acc + item.precio, 0)`: a left fold, so the
      last line is added last. With non-negative prices the subtotal is
      non-negative and no line costs more than the whole cart. */
  function Sum(cart: seq<Product>): (s: real)
    ensures (forall i :: 0 <= i < |cart| ==> cart[i].price >= 0.0) ==>
              s >= 0.0 && forall i :: 0 <= i < |cart| ==> cart[i].price <= s
  {
    if cart == [] then 0.0
    else
      var prefix := cart[..|cart| - 1];
      assert forall i :: 0 <= i < |prefix| ==> prefix[i] == cart[i];
      Sum(prefix) + cart[|cart| - 1].price
  }

  /** The three figures mostrarResumenCompra writes to the page. */
  datatype Summary = Summary(subtotal: real, tax: real, total: real)

  /** Subtotal, tax at IVA and total. The total is exactly the amount
      finalizarCompra charges, subtotal × (1 + IVA). */
  function Summarize(cart: seq<Product>): (s: Summary)
    ensures s.subtotal == Sum(cart)
    ensures s.tax == s.subtotal * 21.0 / 100.0
    ensures s.total == s.subtotal * (1.0 + IVA)
    ensures s.total == s.subtotal + s.tax
  {
    var subtotal := Sum(cart);
    var tax := subtotal * IVA;
    Summary(subtotal, tax, subtotal + tax)
  }

  /** The fold over a concatenation is the sum of the two folds, so the
      subtotal does not depend on how the cart was built up. */
  lemma {:induction false} SumConcat(a: seq<Product>, b: seq<Product>)
    ensures Sum(a + b) == Sum(a) + Sum(b)
    decreases |b|
  {
    if b == [] {
      assert a + b == a;
    } else {
      var b' := b[..|b| - 1];
      assert (a + b)[..|a + b| - 1] == a + b';
      SumConcat(a, b');
    }
  }

  /** Appending one line raises the subtotal by exactly that line's price. */
  lemma SumAppend(cart: seq<Product>, p: Product)
    ensures Sum(cart + [p]) == Sum(cart) + p.price
  {
    assert (cart + [p])[..|cart|] == cart;
  }

  /** An empty cart shows 0 for all three figures. */
  lemma SummaryOfEmptyCart()
    ensures Summarize([]) == Summary(0.0, 0.0, 0.0)
  {
  }

  /** Two units of a 350.00 guitar: subtotal 700.00, IVA 147.00, total 847.00. */
  lemma TwoGuitarsExample(p: Product)
    requires p.price == 350.0
    ensures Summarize([p, p]) == Summary(700.0, 147.0, 847.0)
  {
    assert [p, p][..1] == [p];
    assert [p][..0] == [];
    assert Sum([p]) == 350.0;
    assert Sum([p, p]) == 700.0;
  }
}
