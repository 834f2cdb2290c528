/** The cart list of actualizarCarritoDOM: the `reduce` that counts lines per
    id into a plain object, the order in which `Object.keys` hands those ids
    back, and the (product, quantity) lines drawn from them. */
module Grouping {
  import opened Catalog
  import opened Totals

  /** The ids that occur in the cart. */
  function Ids(cart: seq<Product>): set<nat>
  {
    set i | 0 <= i < |cart| :: cart[i].id
  }

  lemma IdsLast(cart: seq<Product>)
    requires cart != []
    ensures Ids(cart) == Ids(cart[..|cart| - 1]) + {cart[|cart| - 1].id}
  {
    var prefix := cart[..|cart| - 1];
    forall id | id in Ids(prefix) ensures id in Ids(cart) {
      var i :| 0 <= i < |prefix| && prefix[i].id == id;
      assert cart[i].id == id;
    }
  }

  /** Number of cart lines carrying `id`: the quantity of that product. */
  function Count(cart: seq<Product>, id: nat): (n: nat)
    ensures n <= |cart|
  {
    if cart == [] then 0
    else Count(cart[..|cart| - 1], id) + (if cart[|cart| - 1].id == id then 1 else 0)
  }

  /** An id has a positive count exactly when some line carries it. */
  lemma {:induction false} CountPositive(cart: seq<Product>, id: nat)
    ensures Count(cart, id) > 0 <==> id in Ids(cart)
  {
    if cart != [] {
      IdsLast(cart);
      CountPositive(cart[..|cart| - 1], id);
    }
  }

  lemma CountAppend(cart: seq<Product>, p: Product, id: nat)
    ensures Count(cart + [p], id) == Count(cart, id) + Count([p], id)
  {
    assert (cart + [p])[..|cart|] == cart;
    assert [p][..0] == [];
  }

  /** Reference definition of the position of the first line carrying `id`
      (the cart length when none does). The order clauses of Tally and
      GroupedViewOrder are stated with it. */
  function FirstIndex(cart: seq<Product>, id: nat): (r: nat)
    ensures r <= |cart|
    ensures r < |cart| ==> cart[r].id == id
    ensures forall j :: 0 <= j < r ==> cart[j].id != id
  {
    if cart == [] then 0
    else
      var i := FirstIndex(cart[..|cart| - 1], id);
      if i < |cart| - 1 then i
      else if cart[|cart| - 1].id == id then |cart| - 1
      else |cart|
  }

  /** An id is found before the end exactly when some line carries it. */
  lemma FirstIndexFound(cart: seq<Product>, id: nat)
    ensures FirstIndex(cart, id) < |cart| <==> id in Ids(cart)
  {
    var r := FirstIndex(cart, id);
    if r < |cart| {
      assert cart[r].id in Ids(cart);
    }
    if id in Ids(cart) {
      var i :| 0 <= i < |cart| && cart[i].id == id;
    }
  }

  predicate Distinct(s: seq<nat>)
  {
    forall i, j :: 0 <= i < j < |s| ==> s[i] != s[j]
  }

  /** The counter object `carritoContador`: its properties' values and the
      order in which the properties were created. */
  datatype Counter = Counter(counts: map<nat, nat>, created: seq<nat>)

  /** `carrito.reduce((acc, item) => { acc[item.id] = acc[item.id] ? acc[item.id] + 1 : 1; ... }, {})`.
      The object has one property per distinct id, each holding that id's
      line count, and every property was created once. */
  function Tally(cart: seq<Product>): (c: Counter)
    ensures c.counts.Keys == Ids(cart)
    ensures forall id :: id in c.counts ==> c.counts[id] == Count(cart, id)
    ensures Distinct(c.created)
    ensures forall k :: k in c.created <==> k in c.counts
    ensures forall i, j :: 0 <= i < j < |c.created| ==>
              FirstIndex(cart, c.created[i]) < FirstIndex(cart, c.created[j])
  {
    if cart == [] then Counter(map[], [])
    else
      var prefix := cart[..|cart| - 1];
      var acc := Tally(prefix);
      var id := cart[|cart| - 1].id;
      IdsLast(cart);
      if id in acc.counts then
        CreatedInFirstOrder(cart, acc.created, acc.created);
        Counter(acc.counts[id := acc.counts[id] + 1], acc.created)
      else
        CountPositive(prefix, id);
        CreatedInFirstOrder(cart, acc.created, acc.created + [id]);
        Counter(acc.counts[id := 1], acc.created + [id])
  }

  /** Ids already in the cart keep their first position when a line is
      appended, and a new id is first found at the appended line, so the
      creation order stays the order of first occurrence. */
  lemma CreatedInFirstOrder(cart: seq<Product>, before: seq<nat>, created: seq<nat>)
    requires cart != []
    requires forall k :: k in before ==> k in Ids(cart[..|cart| - 1])
    requires forall i, j :: 0 <= i < j < |before| ==>
               FirstIndex(cart[..|cart| - 1], before[i]) < FirstIndex(cart[..|cart| - 1], before[j])
    requires created == before ||
             (created == before + [cart[|cart| - 1].id] && cart[|cart| - 1].id !in Ids(cart[..|cart| - 1]))
    ensures forall i, j :: 0 <= i < j < |created| ==> FirstIndex(cart, created[i]) < FirstIndex(cart, created[j])
  {
    var prefix := cart[..|cart| - 1];
    forall k | k in before ensures FirstIndex(cart, k) == FirstIndex(prefix, k) < |prefix| {
      FirstIndexFound(prefix, k);
    }
    assert forall i :: 0 <= i < |before| ==> before[i] in before;
    if created != before {
      var id := cart[|cart| - 1].id;
      FirstIndexFound(prefix, id);
      assert FirstIndex(cart, id) == |prefix|;
      assert forall i :: 0 <= i < |before| ==> created[i] == before[i];
    }
  }

  /** Largest array index: a property key is an array index when it is an
      integer below 2^32 - 1 (section 6.1.7 of ECMA-262). */
  const MaxArrayIndex: nat := 0xFFFF_FFFE

  predicate IsArrayIndex(k: nat)
  {
    k <= MaxArrayIndex
  }

  /** The array-index keys of `s`, in the order of `s`. */
  function IndexKeys(s: seq<nat>): (r: seq<nat>)
    ensures forall k :: k in r <==> k in s && IsArrayIndex(k)
    ensures Distinct(s) ==> Distinct(r)
  {
    if s == [] then []
    else
      var rest := IndexKeys(s[1..]);
      assert forall k :: k in s[1..] ==> k in s;
      if IsArrayIndex(s[0]) then [s[0]] + rest else rest
  }

  /** The keys of `s` that are not array indices, in the order of `s`. */
  function OtherKeys(s: seq<nat>): (r: seq<nat>)
    ensures forall k :: k in r <==> k in s && !IsArrayIndex(k)
    ensures Distinct(s) ==> Distinct(r)
  {
    if s == [] then []
    else
      var rest := OtherKeys(s[1..]);
      assert forall k :: k in s[1..] ==> k in s;
      if IsArrayIndex(s[0]) then rest else [s[0]] + rest
  }

  /** `a` occurs in `s` at some position before one where `b` occurs. */
  predicate Before(s: seq<nat>, a: nat, b: nat)
  {
    exists p, q :: 0 <= p < q < |s| && s[p] == a && s[q] == b
  }

  /** Filtering keeps the relative order of the keys it keeps. */
  lemma {:induction false} OtherKeysInOrder(s: seq<nat>)
    ensures forall i, j :: 0 <= i < j < |OtherKeys(s)| ==> Before(s, OtherKeys(s)[i], OtherKeys(s)[j])
  {
    if s != [] {
      var rest := OtherKeys(s[1..]);
      OtherKeysInOrder(s[1..]);
      var r := OtherKeys(s);
      forall i, j | 0 <= i < j < |r| ensures Before(s, r[i], r[j]) {
        if IsArrayIndex(s[0]) {
          assert r == rest;
          var p, q :| 0 <= p < q < |s[1..]| && s[1..][p] == r[i] && s[1..][q] == r[j];
          assert s[p + 1] == r[i] && s[q + 1] == r[j];
        } else if i == 0 {
          assert r[j] == rest[j - 1] && rest[j - 1] in rest;
          var q :| 0 <= q < |s[1..]| && s[1..][q] == r[j];
          assert s[0] == r[i] && s[q + 1] == r[j];
        } else {
          assert r[i] == rest[i - 1] && r[j] == rest[j - 1];
          assert Before(s[1..], rest[i - 1], rest[j - 1]);
          var p, q :| 0 <= p < q < |s[1..]| && s[1..][p] == r[i] && s[1..][q] == r[j];
          assert s[p + 1] == r[i] && s[q + 1] == r[j];
        }
      }
    }
  }

  predicate Ascending(s: seq<nat>)
  {
    forall i, j :: 0 <= i < j < |s| ==> s[i] < s[j]
  }

  /** Places `k` into an ascending sequence. */
  function Insert(s: seq<nat>, k: nat): (r: seq<nat>)
    requires Ascending(s) && k !in s
    ensures Ascending(r)
    ensures forall x :: x in r <==> x in s || x == k
  {
    if s == [] then [k]
    else if k < s[0] then [k] + s
    else
      var rest := Insert(s[1..], k);
      assert forall x :: x in s[1..] ==> s[0] < x;
      assert forall j :: 0 <= j < |rest| ==> s[0] < rest[j] by {
        forall j | 0 <= j < |rest| ensures s[0] < rest[j] {
          assert rest[j] in rest;
        }
      }
      [s[0]] + rest
  }

  /** The elements of a duplicate-free sequence in ascending order. */
  function SortAscending(s: seq<nat>): (r: seq<nat>)
    requires Distinct(s)
    ensures Ascending(r)
    ensures forall x :: x in r <==> x in s
  {
    if s == [] then []
    else
      var prefix := s[..|s| - 1];
      assert forall x :: x in prefix ==> x in s;
      assert s == prefix + [s[|s| - 1]];
      Insert(SortAscending(prefix), s[|s| - 1])
  }

  /** `Object.keys(carritoContador)` (OrdinaryOwnPropertyKeys, section
      10.1.11.1 of ECMA-262): every property exactly once, the array-index
      keys first in ascending numeric order, then the remaining keys in the
      order they were created. */
  function OwnKeys(c: Counter): (r: seq<nat>)
    requires Distinct(c.created)
    ensures forall k :: k in r <==> k in c.created
    ensures Distinct(r)
    ensures forall i, j :: 0 <= i < j < |r| && IsArrayIndex(r[j]) ==> IsArrayIndex(r[i]) && r[i] < r[j]
    ensures forall i, j :: 0 <= i < j < |r| && !IsArrayIndex(r[i]) && !IsArrayIndex(r[j]) ==>
              Before(c.created, r[i], r[j])
  {
    var front := SortAscending(IndexKeys(c.created));
    var back := OtherKeys(c.created);
    IndexKeysFirst(front, back);
    OtherKeysInOrder(c.created);
    OtherKeysAfter(front, back, c.created);
    front + back
  }

  /** Behind the array-index keys, the other keys keep the order they have
      in `back`. */
  lemma OtherKeysAfter(front: seq<nat>, back: seq<nat>, s: seq<nat>)
    requires forall k :: k in front ==> IsArrayIndex(k)
    requires forall i, j :: 0 <= i < j < |back| ==> Before(s, back[i], back[j])
    ensures forall i, j ::
              (0 <= i < j < |front + back| && !IsArrayIndex((front + back)[i]) && !IsArrayIndex((front + back)[j])) ==>
              Before(s, (front + back)[i], (front + back)[j])
  {
    var r := front + back;
    forall i, j | 0 <= i < j < |r| && !IsArrayIndex(r[i]) && !IsArrayIndex(r[j])
      ensures Before(s, r[i], r[j])
    {
      assert r[i] == back[i - |front|] && r[j] == back[j - |front|];
    }
  }

  /** Ascending array-index keys followed by duplicate-free other keys form a
      duplicate-free sequence whose array-index keys lead, in ascending order. */
  lemma IndexKeysFirst(front: seq<nat>, back: seq<nat>)
    requires Ascending(front) && Distinct(back)
    requires forall k :: k in front ==> IsArrayIndex(k)
    requires forall k :: k in back ==> !IsArrayIndex(k)
    ensures Distinct(front + back)
    ensures forall i, j :: 0 <= i < j < |front + back| && IsArrayIndex((front + back)[j]) ==>
      IsArrayIndex((front + back)[i]) && (front + back)[i] < (front + back)[j]
  {
    var r := front + back;
    assert forall i :: 0 <= i < |front| ==> r[i] == front[i] && front[i] in front;
    assert forall i :: |front| <= i < |r| ==> r[i] == back[i - |front|] && back[i - |front|] in back;
  }

  /** Every id the cart holds names a catalog record. The lookup at the head
      of each drawn line dereferences the record, so without this the list
      cannot be drawn. */
  predicate Stocked(catalog: seq<Product>, cart: seq<Product>)
  {
    forall i :: 0 <= i < |cart| ==> Listed(catalog, cart[i].id)
  }

  /** Every cart line is the very record the catalog lookup returns for its
      id, as lines pushed by agregarAlCarrito are. */
  predicate Priced(catalog: seq<Product>, cart: seq<Product>)
  {
    forall i :: 0 <= i < |cart| ==> FindFirst(catalog, cart[i].id) == Some(cart[i])
  }

  /** One drawn line: `${cantidad}x - ${producto.nombre} ($${producto.precio * cantidad})`. */
  datatype LineView = LineView(product: Product, quantity: nat)

  function LineTotal(l: LineView): real
  {
    l.product.price * l.quantity as real
  }

  /** The lines drawn for `keys`, one per key, in the order of `keys`. */
  function Lines(catalog: seq<Product>, cart: seq<Product>, keys: seq<nat>): (v: seq<LineView>)
    requires forall k :: k in keys ==> Listed(catalog, k)
    ensures |v| == |keys|
    ensures forall i :: 0 <= i < |v| ==> Some(v[i].product) == FindFirst(catalog, keys[i]) && v[i].quantity == Count(cart, keys[i])
  {
    if keys == [] then []
    else
      var prefix := keys[..|keys| - 1];
      var k := keys[|keys| - 1];
      assert forall i :: 0 <= i < |prefix| ==> prefix[i] == keys[i];
      assert forall x :: x in prefix ==> x in keys;
      assert k in keys;
      Lines(catalog, cart, prefix) + [LineView(FindFirst(catalog, k).value, Count(cart, k))]
  }

  /** One more key draws one more line. */
  lemma LinesStep(catalog: seq<Product>, cart: seq<Product>, keys: seq<nat>, i: nat)
    requires forall k :: k in keys ==> Listed(catalog, k)
    requires i < |keys|
    ensures keys[i] in keys && forall k :: k in keys[..i + 1] ==> k in keys
    ensures Lines(catalog, cart, keys[..i + 1]) ==
            Lines(catalog, cart, keys[..i]) + [LineView(FindFirst(catalog, keys[i]).value, Count(cart, keys[i]))]
  {
    assert keys[..i + 1][..i] == keys[..i];
  }

  /** The counter holds, for each key it yields, that key's line count. */
  lemma CounterAt(cart: seq<Product>, keys: seq<nat>, i: nat)
    requires keys == OwnKeys(Tally(cart)) && i < |keys|
    ensures keys[i] in Tally(cart).counts && Tally(cart).counts[keys[i]] == Count(cart, keys[i])
  {
    assert keys[i] in keys;
  }

  /** The whole list: one line per cart id, in `Object.keys` order. */
  function GroupedView(catalog: seq<Product>, cart: seq<Product>): (v: seq<LineView>)
    requires Stocked(catalog, cart)
    ensures v == [] <==> cart == []
  {
    var keys := OwnKeys(Tally(cart));
    ViewKeys(catalog, cart, keys);
    assert cart != [] ==> cart[0].id in Ids(cart) && cart[0].id in keys;
    Lines(catalog, cart, keys)
  }

  /** The keys the list is drawn from are exactly the cart's ids, once each,
      and each names a catalog record. */
  lemma ViewKeys(catalog: seq<Product>, cart: seq<Product>, keys: seq<nat>)
    requires Stocked(catalog, cart)
    requires keys == OwnKeys(Tally(cart))
    ensures Distinct(keys)
    ensures forall k :: k in keys <==> k in Ids(cart)
    ensures forall k :: k in keys ==> Listed(catalog, k)
  {
    forall k | k in keys ensures Listed(catalog, k) {
      assert k in Ids(cart);
      var i :| 0 <= i < |cart| && cart[i].id == k;
    }
  }

  lemma LinesIds(catalog: seq<Product>, cart: seq<Product>, keys: seq<nat>)
    requires forall k :: k in keys ==> Listed(catalog, k)
    ensures var v := Lines(catalog, cart, keys);
            forall i :: 0 <= i < |v| ==> v[i].product.id == keys[i]
  {
    var v := Lines(catalog, cart, keys);
    forall i | 0 <= i < |v| ensures v[i].product.id == keys[i] {
      assert keys[i] in keys;
      assert Some(v[i].product) == FindFirst(catalog, keys[i]);
    }
  }

  /** The list shows each distinct cart id on exactly one line. */
  lemma GroupedViewCoversCart(catalog: seq<Product>, cart: seq<Product>)
    requires Stocked(catalog, cart)
    ensures var v := GroupedView(catalog, cart);
            (forall i :: 0 <= i < |v| ==> v[i].product.id in Ids(cart)) &&
            (forall id :: id in Ids(cart) ==> exists i :: 0 <= i < |v| && v[i].product.id == id) &&
            (forall i, j :: 0 <= i < j < |v| ==> v[i].product.id != v[j].product.id)
  {
  }

  /** Each line shows the catalog's first record for its id and, as its
      quantity, the number of cart lines carrying that id. */
  lemma GroupedViewQuantities(catalog: seq<Product>, cart: seq<Product>)
    requires Stocked(catalog, cart)
    ensures var v := GroupedView(catalog, cart);
            forall i :: 0 <= i < |v| ==>
              Some(v[i].product) == FindFirst(catalog, v[i].product.id) &&
              v[i].quantity == Count(cart, v[i].product.id) > 0
  {
    var keys := OwnKeys(Tally(cart));
    ViewKeys(catalog, cart, keys);
    LinesIds(catalog, cart, keys);
    var v := GroupedView(catalog, cart);
    forall i | 0 <= i < |v|
      ensures Some(v[i].product) == FindFirst(catalog, v[i].product.id)
      ensures v[i].quantity == Count(cart, v[i].product.id) > 0
    {
      assert v[i].product.id == keys[i] && keys[i] in keys;
      assert keys[i] in Ids(cart);
      CountPositive(cart, keys[i]);
    }
  }

  /** Lines whose ids are array indices come first, in ascending id order,
      whatever order the products were added in; the lines of the other ids
      follow in the order their products were first added. */
  lemma GroupedViewOrder(catalog: seq<Product>, cart: seq<Product>)
    requires Stocked(catalog, cart)
    ensures var v := GroupedView(catalog, cart);
            forall i, j :: 0 <= i < j < |v| && IsArrayIndex(v[j].product.id) ==>
              IsArrayIndex(v[i].product.id) && v[i].product.id < v[j].product.id
    ensures var v := GroupedView(catalog, cart);
            forall i, j :: 0 <= i < j < |v| && !IsArrayIndex(v[i].product.id) && !IsArrayIndex(v[j].product.id) ==>
              FirstIndex(cart, v[i].product.id) < FirstIndex(cart, v[j].product.id)
  {
    var keys := OwnKeys(Tally(cart));
    ViewKeys(catalog, cart, keys);
    LinesIds(catalog, cart, keys);
    KeysInFirstOrder(cart, keys);
    assert GroupedView(catalog, cart) == Lines(catalog, cart, keys);
  }

  /** The keys that are not array indices come in first-occurrence order. */
  lemma KeysInFirstOrder(cart: seq<Product>, keys: seq<nat>)
    requires keys == OwnKeys(Tally(cart))
    ensures forall i, j :: 0 <= i < j < |keys| && !IsArrayIndex(keys[i]) && !IsArrayIndex(keys[j]) ==>
              FirstIndex(cart, keys[i]) < FirstIndex(cart, keys[j])
  {
    var c := Tally(cart);
    forall i, j | 0 <= i < j < |keys| && !IsArrayIndex(keys[i]) && !IsArrayIndex(keys[j])
      ensures FirstIndex(cart, keys[i]) < FirstIndex(cart, keys[j])
    {
      var p, q :| 0 <= p < q < |c.created| && c.created[p] == keys[i] && c.created[q] == keys[j];
    }
  }

  /** Two ids too large to be array indices, added larger first, keep that
      order: the keys come back as [2^32 + 1, 2^32]. */
  lemma LargeIdsKeepAddedOrder(a: Product, b: Product)
    requires a.id == 0x1_0000_0001 && b.id == 0x1_0000_0000
    ensures OwnKeys(Tally([a, b])) == [a.id, b.id]
  {
    TallyOfTwo(a, b);
    OwnKeysOfOtherKeys(Tally([a, b]));
  }

  lemma TallyOfTwo(a: Product, b: Product)
    requires a.id != b.id
    ensures Tally([a, b]).created == [a.id, b.id]
  {
    assert [a, b][..1] == [a] && [a][..0] == [];
    assert Tally([a]).created == [a.id];
    assert b.id !in Tally([a]).counts;
  }

  lemma OwnKeysOfOtherKeys(c: Counter)
    requires |c.created| == 2 && c.created[0] != c.created[1]
    requires !IsArrayIndex(c.created[0]) && !IsArrayIndex(c.created[1])
    ensures OwnKeys(c) == c.created
  {
    var created := c.created;
    assert created[1..] == [created[1]] && [created[1]][1..] == [];
    assert IndexKeys([created[1]]) == [];
    assert IndexKeys(created) == [];
    assert OtherKeys([created[1]]) == [created[1]];
    assert OtherKeys(created) == created;
  }

  /** Total number of units over the drawn lines. */
  function QuantitySum(v: seq<LineView>): nat
  {
    if v == [] then 0 else QuantitySum(v[..|v| - 1]) + v[|v| - 1].quantity
  }

  /** Total price over the drawn lines. */
  function TotalSum(v: seq<LineView>): real
  {
    if v == [] then 0.0 else TotalSum(v[..|v| - 1]) + LineTotal(v[|v| - 1])
  }

  /** Σ over the lines of `w(id)`. */
  function Weigh(cart: seq<Product>, w: nat -> real): real
  {
    if cart == [] then 0.0 else Weigh(cart[..|cart| - 1], w) + w(cart[|cart| - 1].id)
  }

  /** Σ over the keys of `w(k)` times the number of lines carrying `k`. */
  function KeyWeigh(cart: seq<Product>, keys: seq<nat>, w: nat -> real): real
  {
    if keys == [] then 0.0
    else
      var k := keys[|keys| - 1];
      KeyWeigh(cart, keys[..|keys| - 1], w) + Times(w(k), Count(cart, k))
  }

  /** `x` added up `n` times. */
  function Times(x: real, n: nat): real
  {
    if n == 0 then 0.0 else Times(x, n - 1) + x
  }

  lemma {:induction false} TimesIsProduct(x: real, n: nat)
    ensures Times(x, n) == x * n as real
  {
    if n > 0 {
      TimesIsProduct(x, n - 1);
    }
  }

  lemma {:induction false} TimesAdd(x: real, a: nat, b: nat)
    ensures Times(x, a + b) == Times(x, a) + Times(x, b)
    decreases b
  {
    if b > 0 {
      TimesAdd(x, a, b - 1);
    }
  }

  lemma {:induction false} KeyWeighAppend(cart: seq<Product>, p: Product, keys: seq<nat>, w: nat -> real)
    ensures KeyWeigh(cart + [p], keys, w) == KeyWeigh(cart, keys, w) + KeyWeigh([p], keys, w)
    decreases |keys|
  {
    if keys != [] {
      var prefix, k := keys[..|keys| - 1], keys[|keys| - 1];
      KeyWeighAppend(cart, p, prefix, w);
      CountAppend(cart, p, k);
      TimesAdd(w(k), Count(cart, k), Count([p], k));
    }
  }

  lemma {:induction false} KeyWeighAbsent(p: Product, keys: seq<nat>, w: nat -> real)
    requires p.id !in keys
    ensures KeyWeigh([p], keys, w) == 0.0
    decreases |keys|
  {
    if keys != [] {
      var prefix, k := keys[..|keys| - 1], keys[|keys| - 1];
      assert forall x :: x in prefix ==> x in keys;
      KeyWeighAbsent(p, prefix, w);
      assert [p][..0] == [];
      assert k in keys && k != p.id;
      assert Count([p], k) == 0;
    }
  }

  lemma {:induction false} KeyWeighSingle(p: Product, keys: seq<nat>, w: nat -> real)
    requires Distinct(keys) && p.id in keys
    ensures KeyWeigh([p], keys, w) == w(p.id)
    decreases |keys|
  {
    var prefix := keys[..|keys| - 1];
    var k := keys[|keys| - 1];
    assert keys == prefix + [k];
    assert [p][..0] == [];
    if k == p.id {
      assert p.id !in prefix;
      KeyWeighAbsent(p, prefix, w);
      assert Count([p], k) == 1;
      assert Times(w(k), 1) == w(k);
      assert KeyWeigh([p], keys, w) == KeyWeigh([p], prefix, w) + Times(w(k), 1);
    } else {
      assert p.id in prefix;
      KeyWeighSingle(p, prefix, w);
      assert Count([p], k) == 0;
      assert KeyWeigh([p], keys, w) == KeyWeigh([p], prefix, w) + Times(w(k), 0);
    }
  }

  /** Regrouping: summing `w` line by line equals summing it key by key,
      weighted by each key's count, for any duplicate-free list of keys that
      covers the cart's ids. */
  lemma {:induction false} Regroup(cart: seq<Product>, keys: seq<nat>, w: nat -> real)
    requires Distinct(keys)
    requires forall i :: 0 <= i < |cart| ==> cart[i].id in keys
    ensures KeyWeigh(cart, keys, w) == Weigh(cart, w)
    decreases |cart|
  {
    if cart == [] {
      KeyWeighEmpty(keys, w);
    } else {
      var prefix := cart[..|cart| - 1];
      var p := cart[|cart| - 1];
      assert cart == prefix + [p];
      Regroup(prefix, keys, w);
      KeyWeighAppend(prefix, p, keys, w);
      KeyWeighSingle(p, keys, w);
    }
  }

  lemma {:induction false} KeyWeighEmpty(keys: seq<nat>, w: nat -> real)
    ensures KeyWeigh([], keys, w) == 0.0
    decreases |keys|
  {
    if keys != [] {
      KeyWeighEmpty(keys[..|keys| - 1], w);
    }
  }

  function One(k: nat): real
  {
    1.0
  }

  lemma {:induction false} TimesOne(n: nat)
    ensures Times(1.0, n) == n as real
  {
    if n > 0 {
      TimesOne(n - 1);
    }
  }

  lemma {:induction false} LinesQuantities(catalog: seq<Product>, cart: seq<Product>, keys: seq<nat>)
    requires forall k :: k in keys ==> Listed(catalog, k)
    ensures QuantitySum(Lines(catalog, cart, keys)) as real == KeyWeigh(cart, keys, One)
    decreases |keys|
  {
    if keys != [] {
      var prefix := keys[..|keys| - 1];
      assert forall x :: x in prefix ==> x in keys;
      var k := keys[|keys| - 1];
      var line := LineView(FindFirst(catalog, k).value, Count(cart, k));
      calc {
        QuantitySum(Lines(catalog, cart, keys)) as real;
      == { assert Lines(catalog, cart, keys) == Lines(catalog, cart, prefix) + [line];
           SumsAppend(Lines(catalog, cart, prefix), line); }
        QuantitySum(Lines(catalog, cart, prefix)) as real + Count(cart, k) as real;
      == { LinesQuantities(catalog, cart, prefix);
           TimesOne(Count(cart, k)); }
        KeyWeigh(cart, prefix, One) + Times(One(k), Count(cart, k));
      }
    }
  }

  lemma {:induction false} LinesTotals(catalog: seq<Product>, cart: seq<Product>, keys: seq<nat>, w: nat -> real)
    requires forall k :: k in keys ==> Listed(catalog, k)
    requires forall k :: k in keys ==> w(k) == FindFirst(catalog, k).value.price
    ensures TotalSum(Lines(catalog, cart, keys)) == KeyWeigh(cart, keys, w)
    decreases |keys|
  {
    if keys != [] {
      var prefix := keys[..|keys| - 1];
      assert forall x :: x in prefix ==> x in keys;
      var k := keys[|keys| - 1];
      var line := LineView(FindFirst(catalog, k).value, Count(cart, k));
      calc {
        TotalSum(Lines(catalog, cart, keys));
      == { assert Lines(catalog, cart, keys) == Lines(catalog, cart, prefix) + [line];
           SumsAppend(Lines(catalog, cart, prefix), line); }
        TotalSum(Lines(catalog, cart, prefix)) + LineTotal(line);
      == { LinesTotals(catalog, cart, prefix, w);
           assert k in keys;
           LineTotalIsTimes(catalog, cart, k, w); }
        KeyWeigh(cart, prefix, w) + Times(w(k), Count(cart, k));
      }
    }
  }

  lemma LineTotalIsTimes(catalog: seq<Product>, cart: seq<Product>, k: nat, w: nat -> real)
    requires Listed(catalog, k) && w(k) == FindFirst(catalog, k).value.price
    ensures LineTotal(LineView(FindFirst(catalog, k).value, Count(cart, k))) == Times(w(k), Count(cart, k))
  {
    TimesIsProduct(w(k), Count(cart, k));
  }

  lemma SumsAppend(v: seq<LineView>, line: LineView)
    ensures QuantitySum(v + [line]) == QuantitySum(v) + line.quantity
    ensures TotalSum(v + [line]) == TotalSum(v) + LineTotal(line)
  {
    assert (v + [line])[..|v|] == v;
  }

  lemma {:induction false} WeighOne(cart: seq<Product>)
    ensures Weigh(cart, One) == |cart| as real
  {
    if cart != [] {
      WeighOne(cart[..|cart| - 1]);
    }
  }

  lemma {:induction false} WeighPrices(catalog: seq<Product>, cart: seq<Product>, w: nat -> real)
    requires Priced(catalog, cart)
    requires forall i :: 0 <= i < |cart| ==> w(cart[i].id) == cart[i].price
    ensures Weigh(cart, w) == Sum(cart)
  {
    if cart != [] {
      var prefix := cart[..|cart| - 1];
      assert forall i :: 0 <= i < |prefix| ==> prefix[i] == cart[i];
      WeighPrices(catalog, prefix, w);
    }
  }

  /** The quantities on the drawn list add up to the number of cart lines. */
  lemma QuantitiesCoverCart(catalog: seq<Product>, cart: seq<Product>)
    requires Stocked(catalog, cart)
    ensures QuantitySum(GroupedView(catalog, cart)) == |cart|
  {
    var keys := OwnKeys(Tally(cart));
    ViewKeys(catalog, cart, keys);
    assert forall i :: 0 <= i < |cart| ==> cart[i].id in Ids(cart);
    LinesQuantities(catalog, cart, keys);
    Regroup(cart, keys, One);
    WeighOne(cart);
  }

  /** When every line is a copy of its catalog record, the line totals on the
      drawn list add up to the subtotal. */
  lemma LineTotalsMatchSubtotal(catalog: seq<Product>, cart: seq<Product>)
    requires Priced(catalog, cart)
    ensures Stocked(catalog, cart)
    ensures TotalSum(GroupedView(catalog, cart)) == Sum(cart)
  {
    var w := (k: nat) => match FindFirst(catalog, k) case Some(p) => p.price case None => 0.0;
    var keys := OwnKeys(Tally(cart));
    assert Stocked(catalog, cart);
    ViewKeys(catalog, cart, keys);
    assert forall i :: 0 <= i < |cart| ==> cart[i].id in Ids(cart);
    LinesTotals(catalog, cart, keys, w);
    Regroup(cart, keys, w);
    WeighPrices(catalog, cart, w);
  }
}
