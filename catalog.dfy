/** The instrument catalog (CATALAGO_INSTRUMENTOS in main.js) and the lookup
    `catalog.find(p => p.id === id)` that every cart operation goes through. */
module Catalog {

  datatype Option<T> = None | Some(value: T)

  /** One catalog record. The store also keeps `imagen` and `categoria`,
      which only the catalog grid displays. Prices are exact reals. */
  datatype Product = Product(id: nat, name: string, price: real)

  /** True when some record of `catalog` carries `id`. */
  predicate Listed(catalog: seq<Product>, id: nat)
  {
    exists i :: 0 <= i < |catalog| && catalog[i].id == id
  }

  /** True when no record before position `i` carries `id`, so that a
      record at `i` with that id is the first one. */
  predicate FirstAt(catalog: seq<Product>, i: nat, id: nat)
    requires i <= |catalog|
  {
    forall j :: 0 <= j < i ==> catalog[j].id != id
  }

  /** `Array.prototype.find`: the first record whose id is `id`, or
      undefined (None) when there is none. */
  function FindFirst(catalog: seq<Product>, id: nat): (r: Option<Product>)
    ensures r.None? <==> !Listed(catalog, id)
    ensures r.Some? ==> r.value.id == id
    ensures r.Some? ==> exists i :: 0 <= i < |catalog| && catalog[i] == r.value && FirstAt(catalog, i, id)
  {
    if catalog == [] then None
    else if catalog[0].id == id then
      assert FirstAt(catalog, 0, id);
      Some(catalog[0])
    else
      var r := FindFirst(catalog[1..], id);
      assert Listed(catalog, id) ==> Listed(catalog[1..], id) by {
        if Listed(catalog, id) {
          var i :| 0 <= i < |catalog| && catalog[i].id == id;
          assert catalog[1..][i - 1].id == id;
        }
      }
      if r.Some? then
        var i :| 0 <= i < |catalog[1..]| && catalog[1..][i] == r.value && FirstAt(catalog[1..], i, id);
        assert catalog[i + 1] == r.value && FirstAt(catalog, i + 1, id);
        r
      else
        r
  }
}
