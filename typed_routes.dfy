/**
 * The handlers of errors.js: the same routes as routes/products.js, but a
 * missing record or invalid data is passed to `next` as a `NotFoundError`
 * or `ValidationError` instead of being answered directly. errors.js does
 * not define `router`, `products`, `validateProduct` or `uuidv4`; they are
 * taken here to be those of routes/products.js, so these handlers work on
 * the same store. POST and PUT run behind `validateProduct`.
 */
module TypedRoutes {
  import opened Values
  import opened Catalog
  import opened Http
  import opened Errors
  import opened Validation
  import opened Routes

  const InvalidDataText := "Invalid product data"

  /**
   * The hand-written check: `name`, `description`, `price` and `category`
   * truthy, and `typeof inStock === 'boolean'`.
   */
  function DataValid(b: Body): (ok: bool)
    ensures !b.inStock.Bool? ==> !ok
    ensures ok ==> NotEmpty(b.name) && NotEmpty(b.description) && NotEmpty(b.price) && NotEmpty(b.category)
    ensures ok ==> IsBoolean(b.inStock)
  {
    Truthy(b.name) && Truthy(b.description) && Truthy(b.price) && Truthy(b.category) && b.inStock.Bool?
  }

  /** GET `/:id` (lines 20-26). */
  function TypedGet(ps: seq<Product>, id: string): (r: Reply<Product>)
    ensures !HasId(ps, id) ==> r == Next(NotFoundError(NotFoundText))
    ensures forall i :: FirstMatch(ps, id, i) ==> r == Json(200, ps[i])
  {
    match Find(ps, id)
    case None => Next(NotFoundError(NotFoundText))
    case Some(p) => Json(200, p)
  }

  /** POST `/` handler (lines 28-36): the data check, then the append. */
  function TypedCreated(ps: seq<Product>, id: string, b: Body): (r: Outcome<Product>)
    ensures !DataValid(b) ==> r == Outcome(Next(ValidationError(InvalidDataText)), ps)
    ensures DataValid(b) ==>
      && |r.after| == |ps| + 1 && r.after[..|ps|] == ps
      && r.after[|ps|].id == id && Fields(r.after[|ps|]) == b
      && r.reply == Json(201, r.after[|ps|])
  {
    if !DataValid(b) then Outcome(Next(ValidationError(InvalidDataText)), ps)
    else
      var p := NewProduct(id, b);
      Outcome(Json(201, p), ps + [p])
  }

  /**
   * PUT `/:id` handler (lines 39-52): the lookup comes first, so an absent id
   * is a `NotFoundError` whatever the data.
   */
  function TypedUpdated(ps: seq<Product>, id: string, b: Body): (r: Outcome<Product>)
    ensures !HasId(ps, id) ==> r == Outcome(Next(NotFoundError(NotFoundText)), ps)
    ensures HasId(ps, id) && !DataValid(b) ==> r == Outcome(Next(ValidationError(InvalidDataText)), ps)
    ensures forall i :: FirstMatch(ps, id, i) && DataValid(b) ==>
      && |r.after| == |ps|
      && r.after[i].id == id && Fields(r.after[i]) == b
      && (forall j :: 0 <= j < |ps| && j != i ==> r.after[j] == ps[j])
      && r.reply == Json(200, r.after[i])
  {
    var i := FindIndex(ps, id);
    if i == -1 then Outcome(Next(NotFoundError(NotFoundText)), ps)
    else if !DataValid(b) then Outcome(Next(ValidationError(InvalidDataText)), ps)
    else
      var p := Overwrite(ps[i], b);
      Outcome(Json(200, p), ps[i := p])
  }

  /** DELETE `/:id` (lines 54-61). */
  function TypedDeleted(ps: seq<Product>, id: string): (r: Outcome<Product>)
    ensures !HasId(ps, id) ==> r == Outcome(Next(NotFoundError(NotFoundText)), ps)
    ensures forall i :: FirstMatch(ps, id, i) ==> r == Outcome(NoContent, Spliced(ps, i))
  {
    var i := FindIndex(ps, id);
    if i == -1 then Outcome(Next(NotFoundError(NotFoundText)), ps)
    else Outcome(NoContent, Spliced(ps, i))
  }

  /** Where they succeed, the typed handlers change the store as the plain ones do. */
  lemma TypedAgreesWithPlain(ps: seq<Product>, id: string, b: Body)
    ensures DataValid(b) ==> TypedCreated(ps, id, b) == Created(ps, id, b)
    ensures DataValid(b) ==> TypedUpdated(ps, id, b).after == Updated(ps, id, b).after
    ensures TypedDeleted(ps, id).after == Deleted(ps, id).after
    ensures HasId(ps, id) ==> TypedGet(ps, id) == GetById(ps, id)
  {
  }

  /** The whole POST `/` route: `validateProduct`, then the handler. */
  function ValidatedCreated(ps: seq<Product>, id: string, b: Body): (r: Outcome<Product>)
    ensures !ChecksPass(b) ==> r == Outcome(Rejected(ValidationErrors(b)), ps)
    ensures ChecksPass(b) ==> r == TypedCreated(ps, id, b)
  {
    match ValidateProduct(b)
    case Respond(reply) => Outcome(Rejected(reply.errors), ps)
    case CallNext => TypedCreated(ps, id, b)
  }

  /** The whole PUT `/:id` route: `validateProduct`, then the handler. */
  function ValidatedUpdated(ps: seq<Product>, id: string, b: Body): (r: Outcome<Product>)
    ensures !ChecksPass(b) ==> r == Outcome(Rejected(ValidationErrors(b)), ps)
    ensures ChecksPass(b) ==> r == TypedUpdated(ps, id, b)
  {
    match ValidateProduct(b)
    case Respond(reply) => Outcome(Rejected(reply.errors), ps)
    case CallNext => TypedUpdated(ps, id, b)
  }

  /**
   * On the whole PUT route `validateProduct` runs before the lookup: invalid
   * fields give 400 even for an absent id.
   */
  lemma ValidatorRunsBeforeLookup(ps: seq<Product>, id: string, b: Body)
    requires !HasId(ps, id) && !ChecksPass(b)
    ensures ValidatedUpdated(ps, id, b).reply.Rejected?
    ensures ValidatedUpdated(ps, id, b).after == ps
    ensures TypedUpdated(ps, id, b).reply == Next(NotFoundError(NotFoundText))
  {
  }

  /** A price of 0 passes `isNumeric()` but is falsy: the handler refuses it. */
  lemma ZeroPriceRefused(ps: seq<Product>, id: string, name: string, description: string, category: string, inStock: bool)
    requires name != "" && description != "" && category != ""
    ensures var b := Body(Str(name), Str(description), Num(0), Str(category), Bool(inStock));
      ChecksPass(b) &&
      ValidatedCreated(ps, id, b) == Outcome(Next(ValidationError(InvalidDataText)), ps)
  {
    var b := Body(Str(name), Str(description), Num(0), Str(category), Bool(inStock));
    NumbersAreNumeric(0);
    assert IsBoolean(b.inStock) by { assert CheckedText(Bool(inStock)) in {"true", "false"}; }
  }

  /** `inStock: "true"` passes `isBoolean()` but is not a boolean: the handler refuses it. */
  lemma TextInStockRefused(ps: seq<Product>, id: string, name: string, description: string, price: int, category: string)
    requires name != "" && description != "" && category != ""
    requires price != 0 && -1_000_000_000_000_000_000_000 < price < 1_000_000_000_000_000_000_000
    ensures var b := Body(Str(name), Str(description), Num(price), Str(category), Str("true"));
      ChecksPass(b) &&
      ValidatedCreated(ps, id, b) == Outcome(Next(ValidationError(InvalidDataText)), ps)
    ensures ValidatedCreated(ps, id, Body(Str(name), Str(description), Num(price), Str(category), Bool(true))).reply.Json?
  {
    assert IsBoolean(Bool(true)) by { assert CheckedText(Bool(true)) == "true"; }
    NumbersAreNumeric(price);
  }

  /** The POST handler of errors.js, on the shared store. */
  method Post(store: ProductStore, id: string, b: Body) returns (r: Reply<Product>)
    requires store.Valid() && !HasId(store.products, id)
    modifies store
    ensures store.Valid()
    ensures Outcome(r, store.products) == TypedCreated(old(store.products), id, b)
  {
    if !DataValid(b) {
      r := Next(ValidationError(InvalidDataText));
      return;
    }
    var p := NewProduct(id, b);
    store.products := store.products + [p];
    r := Json(201, p);
  }

  /** The PUT handler of errors.js, on the shared store. */
  method Put(store: ProductStore, id: string, b: Body) returns (r: Reply<Product>)
    requires store.Valid()
    modifies store
    ensures store.Valid()
    ensures Outcome(r, store.products) == TypedUpdated(old(store.products), id, b)
  {
    UpdatedKeepsIdsUnique(store.products, id, b);
    var i := FindIndex(store.products, id);
    if i == -1 {
      r := Next(NotFoundError(NotFoundText));
      return;
    }
    if !DataValid(b) {
      r := Next(ValidationError(InvalidDataText));
      return;
    }
    var p := Overwrite(store.products[i], b);
    store.products := store.products[i := p];
    r := Json(200, p);
  }

  /** The DELETE handler of errors.js, on the shared store. */
  method Delete(store: ProductStore, id: string) returns (r: Reply<Product>)
    requires store.Valid()
    modifies store
    ensures store.Valid()
    ensures Outcome(r, store.products) == TypedDeleted(old(store.products), id)
  {
    DeletedKeepsIdsUnique(store.products, id);
    var index := FindIndex(store.products, id);
    if index == -1 {
      r := Next(NotFoundError(NotFoundText));
      return;
    }
    store.products := store.products[..index] + store.products[index + 1..];
    r := NoContent;
  }
}
