/**
 * `validateProduct` of routes/products.js: one express-validator chain per
 * field, then a middleware that answers 400 with every collected error or
 * calls `next`. Each chain runs all of its checks (there is no `bail`), and
 * `withMessage` replaces the message of the check just before it only; the
 * other checks report express-validator's default message.
 */
module Validation {
  import opened Values
  import opened Catalog
  import opened Http

  const DefaultMessage := "Invalid value"

  /** The text express-validator checks: `undefined` and `null` become "". */
  function CheckedText(v: Value): string {
    if v.Undefined? || v.Null? then "" else JsString(v)
  }

  /** isString(): the value itself is a string. */
  predicate IsString(v: Value) {
    v.Str?
  }

  /** notEmpty(): the checked text is not "". */
  predicate NotEmpty(v: Value) {
    CheckedText(v) != ""
  }

  /** Digits with an optional fraction part: `([0-9]*[.])?[0-9]+`. */
  predicate UnsignedDecimal(t: string) {
    || (t != [] && AllDigits(t))
    || exists k :: 0 <= k < |t| && t[k] == '.' && AllDigits(t[..k]) && k + 1 < |t| && AllDigits(t[k + 1..])
  }

  /** The numeric pattern `^[+-]?([0-9]*[.])?[0-9]+$`. */
  predicate NumericText(s: string) {
    if s != [] && (s[0] == '+' || s[0] == '-') then UnsignedDecimal(s[1..]) else UnsignedDecimal(s)
  }

  /** isNumeric(). */
  predicate IsNumeric(v: Value) {
    NumericText(CheckedText(v))
  }

  /** isBoolean(), strict form: one of "true", "false", "1", "0". */
  predicate IsBoolean(v: Value) {
    CheckedText(v) in {"true", "false", "1", "0"}
  }

  /** Every check of every chain passes. */
  predicate ChecksPass(b: Body) {
    && IsString(b.name) && NotEmpty(b.name)
    && IsString(b.description) && NotEmpty(b.description)
    && IsNumeric(b.price)
    && IsString(b.category) && NotEmpty(b.category)
    && IsBoolean(b.inStock)
  }

  /** The checks of the five chains, one constructor per check. */
  datatype Rule =
    | NameIsString | NameNotEmpty
    | DescriptionIsString | DescriptionNotEmpty
    | PriceIsNumeric
    | CategoryIsString | CategoryNotEmpty
    | InStockIsBoolean

  /** The checks in the order the middlewares of `validateProduct` run them. */
  const Chain: seq<Rule> := [
    NameIsString, NameNotEmpty, DescriptionIsString, DescriptionNotEmpty,
    PriceIsNumeric, CategoryIsString, CategoryNotEmpty, InStockIsBoolean ]

  predicate Holds(r: Rule, b: Body) {
    match r
    case NameIsString => IsString(b.name)
    case NameNotEmpty => NotEmpty(b.name)
    case DescriptionIsString => IsString(b.description)
    case DescriptionNotEmpty => NotEmpty(b.description)
    case PriceIsNumeric => IsNumeric(b.price)
    case CategoryIsString => IsString(b.category)
    case CategoryNotEmpty => NotEmpty(b.category)
    case InStockIsBoolean => IsBoolean(b.inStock)
  }

  /** The error entry a failed check reports. */
  function ErrorOf(r: Rule): FieldError {
    match r
    case NameIsString => FieldError("name", DefaultMessage)
    case NameNotEmpty => FieldError("name", "Name is required")
    case DescriptionIsString => FieldError("description", DefaultMessage)
    case DescriptionNotEmpty => FieldError("description", "Description is required")
    case PriceIsNumeric => FieldError("price", "Price must be a number")
    case CategoryIsString => FieldError("category", DefaultMessage)
    case CategoryNotEmpty => FieldError("category", "Category is required")
    case InStockIsBoolean => FieldError("inStock", "InStock must be a boolean")
  }

  lemma ChecksPassEveryRule(b: Body)
    ensures ChecksPass(b) <==> forall r :: Holds(r, b)
  {
    if !ChecksPass(b) {
      assert !Holds(NameIsString, b) || !Holds(NameNotEmpty, b)
          || !Holds(DescriptionIsString, b) || !Holds(DescriptionNotEmpty, b)
          || !Holds(PriceIsNumeric, b)
          || !Holds(CategoryIsString, b) || !Holds(CategoryNotEmpty, b)
          || !Holds(InStockIsBoolean, b);
    }
  }

  lemma ChainIsComplete(r: Rule)
    ensures r in Chain
  {
  }

  /** Different checks report different entries. */
  lemma ErrorOfInjective(r: Rule, r': Rule)
    requires r != r'
    ensures ErrorOf(r) != ErrorOf(r')
  {
    if ErrorOf(r).path == ErrorOf(r').path {
      assert ErrorOf(r).msg != ErrorOf(r').msg;
    }
  }

  /** The checks of `rules` that fail on `b`, in order. */
  function Failing(rules: seq<Rule>, b: Body): (fs: seq<Rule>)
    ensures |fs| <= |rules|
    ensures forall r :: r in fs <==> r in rules && !Holds(r, b)
  {
    if rules == [] then []
    else (if Holds(rules[0], b) then [] else [rules[0]]) + Failing(rules[1..], b)
  }

  /** The error entries of the failed checks `fs`, in the same order. */
  function Report(fs: seq<Rule>): (errs: seq<FieldError>)
    ensures |errs| == |fs|
    ensures forall i :: 0 <= i < |fs| ==> errs[i] == ErrorOf(fs[i])
    ensures forall r :: ErrorOf(r) in errs <==> r in fs
  {
    var errs := seq(|fs|, i requires 0 <= i < |fs| => ErrorOf(fs[i]));
    assert forall r :: ErrorOf(r) in errs <==> r in fs by {
      forall r ensures ErrorOf(r) in errs <==> r in fs {
        if ErrorOf(r) in errs {
          var i :| 0 <= i < |errs| && errs[i] == ErrorOf(r);
          if fs[i] != r { ErrorOfInjective(fs[i], r); }
        }
        if r in fs {
          var i :| 0 <= i < |fs| && fs[i] == r;
          assert errs[i] == ErrorOf(r);
        }
      }
    }
    errs
  }

  /** `validationResult(req).array()`: one entry per failed check, in chain order. */
  function ValidationErrors(b: Body): (errs: seq<FieldError>)
    ensures |errs| <= |Chain|
    ensures errs == [] <==> ChecksPass(b)
    ensures forall r :: ErrorOf(r) in errs <==> !Holds(r, b)
  {
    var fs := Failing(Chain, b);
    var errs := Report(fs);
    assert forall r :: ErrorOf(r) in errs <==> !Holds(r, b) by {
      forall r ensures ErrorOf(r) in errs <==> !Holds(r, b) { ChainIsComplete(r); }
    }
    assert errs == [] <==> ChecksPass(b) by {
      ChecksPassEveryRule(b);
      if errs != [] { assert errs[0] in errs; }
      if !ChecksPass(b) {
        var r :| !Holds(r, b);
        assert ErrorOf(r) in errs;
      }
    }
    errs
  }

  /** What the final middleware of the chain does. */
  datatype Verdict = CallNext | Respond(reply: Reply<()>)

  /** The final middleware: 400 with the collected errors, or `next()`. */
  function ValidateProduct(b: Body): (v: Verdict)
    ensures v.CallNext? <==> ChecksPass(b)
    ensures v.Respond? ==> v.reply.Rejected? && v.reply.errors != [] &&
                           v.reply.errors == ValidationErrors(b)
  {
    var errs := ValidationErrors(b);
    if errs != [] then Respond(Rejected(errs)) else CallNext
  }

  /**
   * Every JSON integer below 10^21 in magnitude passes isNumeric();
   * `String(n)` writes such a number in plain digits.
   */
  lemma NumbersAreNumeric(n: int)
    requires -1_000_000_000_000_000_000_000 < n < 1_000_000_000_000_000_000_000
    ensures IsNumeric(Num(n))
  {
    var t := NatText(if n < 0 then -n else n);
    if n < 0 {
      assert CheckedText(Num(n)) == "-" + t;
      assert ("-" + t)[1..] == t;
    }
  }

  /** A body with every field missing fails all eight checks, reported in chain order. */
  lemma EmptyBodyFailsEveryCheck()
    ensures var errs := ValidationErrors(Body(Undefined, Undefined, Undefined, Undefined, Undefined));
      |errs| == |Chain| && forall i :: 0 <= i < |Chain| ==> errs[i] == ErrorOf(Chain[i])
  {
    var b := Body(Undefined, Undefined, Undefined, Undefined, Undefined);
    assert CheckedText(Undefined) == "";
    assert !IsBoolean(Undefined) && !IsNumeric(Undefined);
    forall r ensures !Holds(r, b) {
      match r
      case PriceIsNumeric =>
      case InStockIsBoolean =>
      case _ =>
    }
    FailingAll(Chain, b);
  }

  lemma {:induction false} FailingAll(rules: seq<Rule>, b: Body)
    requires forall r :: !Holds(r, b)
    ensures Failing(rules, b) == rules
  {
    if rules != [] {
      FailingAll(rules[1..], b);
    }
  }

  /** A price given as a non-numeric string is refused with the price message. */
  lemma TextPriceRejected(b: Body)
    requires b.price.Str? && !NumericText(b.price.s)
    ensures ValidateProduct(b).Respond?
    ensures ErrorOf(PriceIsNumeric) in ValidationErrors(b)
  {
  }
}
