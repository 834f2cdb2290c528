/** The cart manager of main.js: the module-level state CATALAGO_INSTRUMENTOS,
    carrito and subtotalCompra, the localStorage entry "carritoVintageSound",
    and the handlers that change them. Dialogs become boolean inputs and
    notifications become result values. */
module Cart {
  import opened Catalog
  import opened Totals
  import opened Grouping

  /** What the cart list shows: the "empty cart" notice or the grouped lines. */
  datatype CartDisplay = EmptyNotice | Listing(lines: seq<LineView>)

  /** The outcome of actualizarInterfaz: the cart list and the summary, or the
      TypeError thrown when a cart id has no catalog record. */
  datatype Refresh = Rendered(display: CartDisplay, summary: Summary) | RenderFailed

  datatype AddOutcome = NotFound | Added(product: Product, refresh: Refresh)

  datatype ClearOutcome = AlreadyEmpty | Cancelled | Cleared

  datatype CheckoutOutcome =
    | EmptyCart
    | PaymentDismissed(amountDue: real)
    | Completed(amountDue: real, emptied: bool)

  class CartManager {
    /** CATALAGO_INSTRUMENTOS */
    var catalog: seq<Product>
    /** carrito: one line per unit bought, in the order added */
    var cart: seq<Product>
    /** subtotalCompra: the cached subtotal */
    var subtotal: real
    /** The saved cart, None while the storage key is absent. */
    var stored: Option<seq<Product>>

    /** The state every successful add or confirmed clear leaves behind: the
        cart can be drawn and the cached subtotal is the sum of its prices. */
    ghost predicate Consistent()
      reads this
    {
      Stocked(catalog, cart) && subtotal == Sum(cart)
    }

    /** Script start: an empty catalog until the fetch resolves, the cart
        read back from storage (an absent entry gives an empty cart) and a
        zero subtotal. */
    constructor (saved: Option<seq<Product>>)
      ensures catalog == [] && subtotal == 0.0 && stored == saved
      ensures cart == (if saved.Some? then saved.value else [])
    {
      catalog := [];
      cart := if saved.Some? then saved.value else [];
      subtotal := 0.0;
      stored := saved;
    }

    /** cargarCatalogo once the fetch settles: `fetched` is the parsed
        document, or None when the request failed, in which case the catalog
        stays as it was. */
    method LoadCatalog(fetched: Option<seq<Product>>)
      modifies this
      ensures catalog == (if fetched.Some? then fetched.value else old(catalog))
      ensures cart == old(cart) && subtotal == old(subtotal) && stored == old(stored)
    {
      if fetched.Some? {
        catalog := fetched.value;
      }
    }

    /** guardarCarritoEnLocalStorage */
    method Persist()
      modifies this
      ensures stored == Some(cart)
      ensures catalog == old(catalog) && cart == old(cart) && subtotal == old(subtotal)
    {
      stored := Some(cart);
    }

    /** actualizarCarritoDOM: the empty notice for an empty cart, otherwise
        one line per id in `Object.keys` order. The lookup of each id must
        find a record, so the cart must be stocked. */
    method RenderCart() returns (d: CartDisplay)
      requires Stocked(catalog, cart)
      ensures cart == [] ==> d == EmptyNotice
      ensures cart != [] ==> d == Listing(GroupedView(catalog, cart))
    {
      if |cart| == 0 {
        return EmptyNotice;
      }
      var lines := DrawLines(catalog, cart);
      d := Listing(lines);
    }

    /** mostrarResumenCompra: recomputes the cached subtotal from the cart
        and derives the tax and the total. */
    method ShowSummary() returns (s: Summary)
      modifies this
      ensures subtotal == Sum(cart) && s == Summarize(cart)
      ensures catalog == old(catalog) && cart == old(cart) && stored == old(stored)
    {
      s := Summarize(cart);
      subtotal := s.subtotal;
    }

    /** actualizarInterfaz: draws the cart, then the summary. When a cart id
        has no catalog record the drawing throws, so the summary is never
        recomputed and the cached subtotal keeps its old value. */
    method RefreshInterface() returns (r: Refresh)
      modifies this
      ensures catalog == old(catalog) && cart == old(cart) && stored == old(stored)
      ensures Stocked(catalog, cart) ==>
                subtotal == Sum(cart) &&
                r == Rendered(if cart == [] then EmptyNotice else Listing(GroupedView(catalog, cart)), Summarize(cart))
      ensures !Stocked(catalog, cart) ==> r == RenderFailed && subtotal == old(subtotal)
    {
      if !Stocked(catalog, cart) {
        return RenderFailed;
      }
      var d := RenderCart();
      var s := ShowSummary();
      r := Rendered(d, s);
    }

    /** agregarAlCarrito: appends the first catalog record with `id`, saves
        the cart and refreshes the page; an unknown id changes nothing. */
    method Add(id: nat) returns (r: AddOutcome)
      modifies this
      ensures catalog == old(catalog)
      ensures !Listed(catalog, id) ==>
                r == NotFound && cart == old(cart) && subtotal == old(subtotal) && stored == old(stored)
      ensures Listed(catalog, id) ==>
                r.Added? && Some(r.product) == FindFirst(catalog, id) &&
                cart == old(cart) + [r.product] && stored == Some(cart)
      ensures r.Added? ==> (r.refresh.Rendered? <==> Stocked(catalog, cart))
      ensures r.Added? && r.refresh.Rendered? ==>
                r.refresh.display == Listing(GroupedView(catalog, cart)) &&
                subtotal == Sum(cart) && r.refresh.summary == Summarize(cart)
      ensures r.Added? && !r.refresh.Rendered? ==> subtotal == old(subtotal)
      ensures old(Consistent()) ==> Consistent()
      ensures old(Consistent()) && r.Added? ==> subtotal == old(subtotal) + r.product.price
      ensures old(Priced(catalog, cart)) ==> Priced(catalog, cart)
    {
      var found := FindFirst(catalog, id);
      if found.None? {
        return NotFound;
      }
      ghost var before := cart;
      cart := cart + [found.value];
      Persist();
      AppendKeepsStocked(catalog, before, found.value);
      AppendKeepsPriced(catalog, before, found.value);
      SumAppend(before, found.value);
      assert cart != [];
      var refresh := RefreshInterface();
      r := Added(found.value, refresh);
    }

    /** vaciarCarrito: an empty cart is left alone; otherwise the cart is
        emptied, saved and redrawn only when the user confirms. */
    method Clear(confirmed: bool) returns (r: ClearOutcome)
      modifies this
      ensures catalog == old(catalog)
      ensures old(cart) == [] ==>
                r == AlreadyEmpty && cart == old(cart) && subtotal == old(subtotal) && stored == old(stored)
      ensures old(cart) != [] && !confirmed ==>
                r == Cancelled && cart == old(cart) && subtotal == old(subtotal) && stored == old(stored)
      ensures old(cart) != [] && confirmed ==>
                r == Cleared && cart == [] && stored == Some([]) && subtotal == 0.0 && Consistent()
    {
      if |cart| == 0 {
        return AlreadyEmpty;
      }
      if !confirmed {
        return Cancelled;
      }
      cart := [];
      Persist();
      var refresh := RefreshInterface();
      r := Cleared;
    }

    /** finalizarCompra as written: an empty cart is refused; otherwise the
        amount due is the cached subtotal times (1 + IVA), and once the payment
        dialog completes the cart is handed to vaciarCarrito, which empties it
        only when its own confirmation comes back confirmed. The purchase is
        reported complete either way. */
    method Checkout(paymentCompleted: bool, clearConfirmed: bool) returns (r: CheckoutOutcome)
      modifies this
      ensures catalog == old(catalog)
      ensures old(cart) == [] ==>
                r == EmptyCart && cart == old(cart) && subtotal == old(subtotal) && stored == old(stored)
      ensures old(cart) != [] ==> !r.EmptyCart? && r.amountDue == old(subtotal) * (1.0 + IVA)
      ensures old(cart) != [] && old(Consistent()) ==> r.amountDue == Summarize(old(cart)).total
      ensures old(cart) != [] && !paymentCompleted ==>
                r.PaymentDismissed? && cart == old(cart) && subtotal == old(subtotal) && stored == old(stored)
      ensures old(cart) != [] && paymentCompleted ==> r.Completed? && r.emptied == clearConfirmed
      ensures r.Completed? && r.emptied ==> cart == [] && subtotal == 0.0 && stored == Some([])
      ensures r.Completed? && !r.emptied ==>
                cart == old(cart) != [] && subtotal == old(subtotal) && stored == old(stored)
    {
      if |cart| == 0 {
        return EmptyCart;
      }
      var due := subtotal * (1.0 + IVA);
      if !paymentCompleted {
        return PaymentDismissed(due);
      }
      var cleared := Clear(clearConfirmed);
      r := Completed(due, cleared == Cleared);
    }

    /** Checkout as its own comment intends ("empty the cart after paying"):
        a completed payment empties the cart without a second question. */
    method CheckoutAndEmpty(paymentCompleted: bool) returns (r: CheckoutOutcome)
      modifies this
      ensures catalog == old(catalog)
      ensures old(cart) == [] ==>
                r == EmptyCart && cart == old(cart) && subtotal == old(subtotal) && stored == old(stored)
      ensures old(cart) != [] ==> !r.EmptyCart? && r.amountDue == old(subtotal) * (1.0 + IVA)
      ensures old(cart) != [] && !paymentCompleted ==>
                r.PaymentDismissed? && cart == old(cart) && subtotal == old(subtotal) && stored == old(stored)
      ensures old(cart) != [] && paymentCompleted ==>
                r == Completed(r.amountDue, true) && cart == [] && subtotal == 0.0 && stored == Some([]) && Consistent()
    {
      if |cart| == 0 {
        return EmptyCart;
      }
      var due := subtotal * (1.0 + IVA);
      if !paymentCompleted {
        return PaymentDismissed(due);
      }
      cart := [];
      Persist();
      var refresh := RefreshInterface();
      r := Completed(due, true);
    }

    /** The DOMContentLoaded handler as written: the catalog fetch is started
        but has not resolved when the interface is first drawn, so the draw
        sees the catalog as it was; the listeners are attached only when the
        draw did not throw. `fetched` is what the fetch later resolves to. */
    method Start(fetched: Option<seq<Product>>) returns (wired: bool)
      modifies this
      ensures wired <==> Stocked(old(catalog), old(cart))
      ensures cart == old(cart) && stored == old(stored)
      ensures catalog == (if fetched.Some? then fetched.value else old(catalog))
      ensures wired ==> subtotal == Sum(cart)
      ensures !wired ==> subtotal == old(subtotal)
    {
      var r := RefreshInterface();
      wired := r.Rendered?;
      LoadCatalog(fetched);
    }

    /** Start with the first draw deferred until the catalog has arrived: a
        saved cart whose ids are all in the loaded catalog is drawn and
        totalled, and the listeners are attached once the draw succeeds. */
    method StartAfterLoad(fetched: Option<seq<Product>>) returns (r: Refresh, wired: bool)
      modifies this
      ensures wired <==> r.Rendered?
      ensures wired <==> Stocked(catalog, cart)
      ensures cart == old(cart) && stored == old(stored)
      ensures catalog == (if fetched.Some? then fetched.value else old(catalog))
      ensures Stocked(catalog, cart) ==>
                subtotal == Sum(cart) && Consistent() &&
                r == Rendered(if cart == [] then EmptyNotice else Listing(GroupedView(catalog, cart)), Summarize(cart))
      ensures !Stocked(catalog, cart) ==> r == RenderFailed && subtotal == old(subtotal)
    {
      LoadCatalog(fetched);
      r := RefreshInterface();
      wired := r.Rendered?;
    }
  }

  /** The forEach over `Object.keys(carritoContador)`: one line per key, with
      the key's first catalog record and the count the counter holds for it. */
  method DrawLines(catalog: seq<Product>, cart: seq<Product>) returns (lines: seq<LineView>)
    requires Stocked(catalog, cart)
    ensures lines == GroupedView(catalog, cart)
  {
    var counter := Tally(cart);
    var keys := OwnKeys(counter);
    ViewKeys(catalog, cart, keys);
    lines := [];
    for i := 0 to |keys|
      invariant lines == Lines(catalog, cart, keys[..i])
    {
      LinesStep(catalog, cart, keys, i);
      CounterAt(cart, keys, i);
      var product := FindFirst(catalog, keys[i]);
      lines := lines + [LineView(product.value, counter.counts[keys[i]])];
    }
    assert keys[..|keys|] == keys;
  }

  /** Adding a catalog record keeps every cart id drawable. */
  lemma AppendKeepsStocked(catalog: seq<Product>, cart: seq<Product>, p: Product)
    requires Listed(catalog, p.id)
    ensures Stocked(catalog, cart) ==> Stocked(catalog, cart + [p])
  {
  }

  /** A line pushed by the add handler is a copy of its catalog record, so a
      cart built only by adds keeps every line priced as the catalog says. */
  lemma AppendKeepsPriced(catalog: seq<Product>, cart: seq<Product>, p: Product)
    requires FindFirst(catalog, p.id) == Some(p)
    ensures Priced(catalog, cart) ==> Priced(catalog, cart + [p])
  {
  }

  /** Reloading the page with a saved one-line cart, as written: the first
      draw runs against the still-empty catalog and throws, so no handler is
      attached and the cached subtotal stays 0 although the cart holds a
      line. */
  method ReloadWithSavedCart(p: Product) returns (wired: bool, cart: seq<Product>, cached: real)
    ensures !wired && cart == [p] && cached == 0.0
  {
    var m := new CartManager(Some([p]));
    wired := m.Start(Some([p]));
    cart, cached := m.cart, m.subtotal;
  }

  /** The same reload with the draw deferred until the catalog has loaded:
      the saved line is drawn, the listeners are attached and the subtotal
      shown is its price. */
  method ReloadAfterLoad(p: Product) returns (wired: bool, cart: seq<Product>, shown: real)
    ensures wired && cart == [p] && shown == p.price
  {
    var m := new CartManager(Some([p]));
    assert [p][0].id == p.id;
    assert Listed([p], p.id);
    var r;
    r, wired := m.StartAfterLoad(Some([p]));
    cart, shown := m.cart, m.subtotal;
    assert [p][..0] == [];
    assert Sum([p]) == p.price;
  }

  /** Buying one product, as written, with the clear handler's confirmation
      not confirmed: the purchase is reported complete but the paid line stays
      in the cart. */
  method PaidCartKept(p: Product) returns (r: CheckoutOutcome, cart: seq<Product>)
    ensures r.Completed? && !r.emptied && cart == [p]
  {
    var m := new CartManager(None);
    m.LoadCatalog(Some([p]));
    assert [p][0].id == p.id;
    assert Listed([p], p.id);
    var added := m.Add(p.id);
    r := m.Checkout(true, false);
    cart := m.cart;
  }
}
