/**
 * Product records of routes/products.js and the lookups every handler uses.
 */
module Catalog {
  import opened Values

  /** A stored record: the generated id and the five fields taken from the body. */
  datatype Product = Product(
    id: string,
    name: Value,
    description: Value,
    price: Value,
    category: Value,
    inStock: Value)

  /** The five fields destructured from `req.body`; a missing one is `Undefined`. */
  datatype Body = Body(
    name: Value,
    description: Value,
    price: Value,
    category: Value,
    inStock: Value)

  /** `{ id, name, description, price, category, inStock }` built by a create handler. */
  function NewProduct(id: string, b: Body): Product {
    Product(id, b.name, b.description, b.price, b.category, b.inStock)
  }

  /** `Object.assign(product, { name, description, price, category, inStock })`. */
  function Overwrite(p: Product, b: Body): (q: Product)
    ensures q.id == p.id
  {
    p.(name := b.name, description := b.description, price := b.price,
       category := b.category, inStock := b.inStock)
  }

  /** The five mutable fields of a record, as a body. */
  function Fields(p: Product): Body {
    Body(p.name, p.description, p.price, p.category, p.inStock)
  }

  predicate HasId(ps: seq<Product>, id: string) {
    exists i :: 0 <= i < |ps| && ps[i].id == id
  }

  /** `i` is the position of the first record whose id is `id`. */
  predicate FirstMatch(ps: seq<Product>, id: string, i: int) {
    0 <= i < |ps| && ps[i].id == id && forall j :: 0 <= j < i ==> ps[j].id != id
  }

  /** Store invariant: no two live records share an id. */
  ghost predicate IdsUnique(ps: seq<Product>) {
    forall i, j :: 0 <= i < j < |ps| ==> ps[i].id != ps[j].id
  }

  /** `products.findIndex(p => p.id === id)`: the first matching index, or -1. */
  function FindIndex(ps: seq<Product>, id: string): (i: int)
    ensures -1 <= i < |ps|
    ensures i == -1 <==> !HasId(ps, id)
    ensures 0 <= i ==> ps[i].id == id && forall j :: 0 <= j < i ==> ps[j].id != id
  {
    if ps == [] then -1
    else if ps[0].id == id then 0
    else
      var k := FindIndex(ps[1..], id);
      assert forall j :: 0 < j < |ps| ==> ps[j] == ps[1..][j - 1];
      if k == -1 then -1 else k + 1
  }

  /** `products.find(p => p.id === id)`: the first matching record, if any. */
  function Find(ps: seq<Product>, id: string): (r: Option<Product>)
    ensures r.None? <==> !HasId(ps, id)
    ensures r.Some? ==> r.value.id == id && r.value in ps
    ensures r.Some? ==> exists i :: 0 <= i < |ps| && ps[i] == r.value &&
                                    forall j :: 0 <= j < i ==> ps[j].id != id
  {
    var i := FindIndex(ps, id);
    if i == -1 then None else Some(ps[i])
  }

  /** With unique ids, the record carrying an id is the one found. */
  lemma FindUnique(ps: seq<Product>, k: nat)
    requires IdsUnique(ps) && k < |ps|
    ensures FindIndex(ps, ps[k].id) == k
    ensures Find(ps, ps[k].id) == Some(ps[k])
  {
  }
}
