/**
 * The write handlers of routes/products.js (POST, PUT and DELETE) and the
 * point lookup GET `/:id`, over the module-level `products` array.
 *
 * Each handler is specified by a function from the store before the request
 * to the reply and the store after it; `ProductStore` holds the array and its
 * methods change it in place as the handlers do.
 */
module Routes {
  import opened Values
  import opened Catalog
  import opened Http

  /** What a handler sends and what the store holds afterwards. */
  datatype Outcome<T> = Outcome(reply: Reply<T>, after: seq<Product>)

  const NotFoundText := "Product not found"

  /** GET `/:id` (lines 13-17): the first record with the id, or 404. */
  function GetById(ps: seq<Product>, id: string): (r: Reply<Product>)
    ensures !HasId(ps, id) ==> r == Text(404, NotFoundText)
    ensures forall i :: FirstMatch(ps, id, i) ==> r == Json(200, ps[i])
  {
    match Find(ps, id)
    case None => Text(404, NotFoundText)
    case Some(p) => Json(200, p)
  }

  /** POST `/` (lines 20-25): append a record with the fresh id and the body's five fields. */
  function Created(ps: seq<Product>, id: string, b: Body): (r: Outcome<Product>)
    ensures |r.after| == |ps| + 1 && r.after[..|ps|] == ps
    ensures r.after[|ps|].id == id && Fields(r.after[|ps|]) == b
    ensures r.reply == Json(201, r.after[|ps|])
  {
    var p := NewProduct(id, b);
    Outcome(Json(201, p), ps + [p])
  }

  /**
   * PUT `/:id` (lines 28-35): overwrite the five fields of the first matching
   * record, keeping its id and position, or 404 with the store unchanged.
   */
  function Updated(ps: seq<Product>, id: string, b: Body): (r: Outcome<Product>)
    ensures !HasId(ps, id) ==> r == Outcome(Text(404, NotFoundText), ps)
    ensures forall i :: FirstMatch(ps, id, i) ==>
      && |r.after| == |ps|
      && r.after[i].id == id && Fields(r.after[i]) == b
      && (forall j :: 0 <= j < |ps| && j != i ==> r.after[j] == ps[j])
      && r.reply == Json(200, r.after[i])
  {
    var i := FindIndex(ps, id);
    if i == -1 then Outcome(Text(404, NotFoundText), ps)
    else
      var p := Overwrite(ps[i], b);
      Outcome(Json(200, p), ps[i := p])
  }

  /** `products.splice(i, 1)`. */
  function Spliced(ps: seq<Product>, i: nat): (r: seq<Product>)
    requires i < |ps|
    ensures |r| == |ps| - 1
    ensures forall j :: 0 <= j < i ==> r[j] == ps[j]
    ensures forall j :: i <= j < |r| ==> r[j] == ps[j + 1]
    ensures multiset(r) == multiset(ps) - multiset{ps[i]}
    ensures IsSubsequence(r, ps)
  {
    assert ps == ps[..i] + [ps[i]] + ps[i + 1..];
    SpliceIsSubsequence(ps, i);
    ps[..i] + ps[i + 1..]
  }

  lemma {:induction false} SpliceIsSubsequence<T>(s: seq<T>, i: nat)
    requires i < |s|
    ensures IsSubsequence(s[..i] + s[i + 1..], s)
  {
    if i == 0 {
      assert s[..0] + s[1..] == s[1..];
      SubsequenceOfSelf(s[1..]);
    } else {
      SpliceIsSubsequence(s[1..], i - 1);
      assert s[1..][..i - 1] + s[1..][i..] == (s[..i] + s[i + 1..])[1..];
    }
  }

  lemma {:induction false} SubsequenceOfSelf<T>(s: seq<T>)
    ensures IsSubsequence(s, s)
  {
    if s != [] {
      SubsequenceOfSelf(s[1..]);
    }
  }

  /**
   * DELETE `/:id` (lines 38-43): remove the first matching record, keeping
   * the others in order, or 404 with the store unchanged.
   */
  function Deleted(ps: seq<Product>, id: string): (r: Outcome<Product>)
    ensures !HasId(ps, id) ==> r == Outcome(Text(404, NotFoundText), ps)
    ensures forall i :: FirstMatch(ps, id, i) ==> r == Outcome(NoContent, Spliced(ps, i))
  {
    var i := FindIndex(ps, id);
    if i == -1 then Outcome(Text(404, NotFoundText), ps)
    else Outcome(NoContent, Spliced(ps, i))
  }

  lemma CreatedKeepsIdsUnique(ps: seq<Product>, id: string, b: Body)
    requires IdsUnique(ps) && !HasId(ps, id)
    ensures IdsUnique(Created(ps, id, b).after)
  {
  }

  lemma UpdatedKeepsIdsUnique(ps: seq<Product>, id: string, b: Body)
    requires IdsUnique(ps)
    ensures IdsUnique(Updated(ps, id, b).after)
  {
    var i := FindIndex(ps, id);
    if i != -1 {
      assert FirstMatch(ps, id, i);
    }
  }

  lemma DeletedKeepsIdsUnique(ps: seq<Product>, id: string)
    requires IdsUnique(ps)
    ensures IdsUnique(Deleted(ps, id).after)
  {
    var i := FindIndex(ps, id);
    if i != -1 {
      assert FirstMatch(ps, id, i);
      var r := Spliced(ps, i);
      forall j, k | 0 <= j < k < |r| ensures r[j].id != r[k].id {
        var j', k' := if j < i then j else j + 1, if k < i then k else k + 1;
        assert r[j] == ps[j'] && r[k] == ps[k'];
      }
    }
  }

  /** Creating a record and then fetching its id returns that record. */
  lemma CreateThenGet(ps: seq<Product>, id: string, b: Body)
    requires !HasId(ps, id)
    ensures GetById(Created(ps, id, b).after, id) == Json(200, NewProduct(id, b))
  {
    var after := Created(ps, id, b).after;
    assert FirstMatch(after, id, |ps|);
  }

  /** After an update, fetching the id returns the record with the new fields and the same id. */
  lemma UpdateThenGet(ps: seq<Product>, id: string, b: Body)
    requires HasId(ps, id)
    ensures GetById(Updated(ps, id, b).after, id) == Json(200, NewProduct(id, b))
  {
    var i := FindIndex(ps, id);
    assert FirstMatch(ps, id, i);
    assert FirstMatch(Updated(ps, id, b).after, id, i);
  }

  /** With unique ids, a delete removes the id from the store. */
  lemma DeleteRemovesId(ps: seq<Product>, id: string)
    requires IdsUnique(ps)
    ensures !HasId(Deleted(ps, id).after, id)
  {
    var i := FindIndex(ps, id);
    if i != -1 {
      assert FirstMatch(ps, id, i);
      var r := Spliced(ps, i);
      forall j | 0 <= j < |r| ensures r[j].id != id {
        if j < i { assert r[j] == ps[j]; } else { assert r[j] == ps[j + 1]; }
      }
    }
  }

  /** Delete is not idempotent: deleting a present id twice gives 204 and then 404. */
  lemma DeleteTwice(ps: seq<Product>, id: string)
    requires IdsUnique(ps) && HasId(ps, id)
    ensures Deleted(ps, id).reply == NoContent
    ensures Deleted(Deleted(ps, id).after, id) == Outcome(Text(404, NotFoundText), Deleted(ps, id).after)
  {
    assert FirstMatch(ps, id, FindIndex(ps, id));
    DeleteRemovesId(ps, id);
  }

  /** The module-level `products` array and the handlers that change it. */
  class ProductStore {
    var products: seq<Product>

    ghost predicate Valid()
      reads this
    {
      IdsUnique(products)
    }

    /** `let products = []`. */
    constructor ()
      ensures Valid() && products == []
    {
      products := [];
    }

    /** POST `/`: `products.push(newProduct)`; `id` is the fresh `uuidv4()`. */
    method Post(id: string, b: Body) returns (r: Reply<Product>)
      requires Valid() && !HasId(products, id)
      modifies this
      ensures Valid()
      ensures Outcome(r, products) == Created(old(products), id, b)
    {
      var p := NewProduct(id, b);
      products := products + [p];
      r := Json(201, p);
      CreatedKeepsIdsUnique(old(products), id, b);
    }

    /** PUT `/:id`: `Object.assign` on the found record. */
    method Put(id: string, b: Body) returns (r: Reply<Product>)
      requires Valid()
      modifies this
      ensures Valid()
      ensures Outcome(r, products) == Updated(old(products), id, b)
    {
      UpdatedKeepsIdsUnique(products, id, b);
      var i := FindIndex(products, id);
      if i == -1 {
        r := Text(404, NotFoundText);
        return;
      }
      var p := Overwrite(products[i], b);
      products := products[i := p];
      r := Json(200, p);
    }

    /** DELETE `/:id`: `products.splice(index, 1)`. */
    method Delete(id: string) returns (r: Reply<Product>)
      requires Valid()
      modifies this
      ensures Valid()
      ensures Outcome(r, products) == Deleted(old(products), id)
    {
      DeletedKeepsIdsUnique(products, id);
      var index := FindIndex(products, id);
      if index == -1 {
        r := Text(404, NotFoundText);
        return;
      }
      products := products[..index] + products[index + 1..];
      r := NoContent;
    }
  }
}
