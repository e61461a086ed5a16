/**
 * The error model of the validation engine: a field error carries the path of
 * the offending field, a kind, the bad value (if any) and a free-text detail,
 * and is rendered as `<path>: <body>` the way the Kubernetes field-error
 * library renders it, e.g. `spec.rules[1].host: Duplicate value: "a.com"`.
 */
module FieldErrors {

  /** One step of a field path: a named child (`.host`) or a list index (`[0]`). */
  datatype Segment = Child(name: string) | Index(i: nat)

  /** A field path such as `spec.rules[0].host`; the first segment is the root. */
  type Path = seq<Segment>

  datatype ErrorKind = Required | Invalid | Duplicate | TooMany | Forbidden

  /** The offending value an error carries: none, a string, or a quantity. */
  datatype BadValue = NoValue | Text(s: string) | Count(n: nat)

  datatype FieldError = FieldError(path: Path, kind: ErrorKind, badValue: BadValue, detail: string)

  /** An ordered list of errors; the order is part of every validator's contract. */
  type ErrorList = seq<FieldError>

  // ---------------------------------------------------------------------------
  // Constructors, one per error kind (field.Required, field.Invalid, ...)
  // ---------------------------------------------------------------------------

  function RequiredError(path: Path, detail: string): (e: FieldError)
    ensures e.path == path && e.kind == Required && e.badValue == NoValue && e.detail == detail
  {
    FieldError(path, Required, NoValue, detail)
  }

  function InvalidError(path: Path, value: string, detail: string): (e: FieldError)
    ensures e.path == path && e.kind == Invalid && e.badValue == Text(value) && e.detail == detail
  {
    FieldError(path, Invalid, Text(value), detail)
  }

  function DuplicateError(path: Path, value: string): (e: FieldError)
    ensures e.path == path && e.kind == Duplicate && e.badValue == Text(value) && e.detail == ""
  {
    FieldError(path, Duplicate, Text(value), "")
  }

  /** `actual` items where at most `bound` are allowed; the bound lives in the detail. */
  function TooManyError(path: Path, actual: nat, bound: nat): (e: FieldError)
    ensures e.path == path && e.kind == TooMany && e.badValue == Count(actual)
    ensures e.detail == "must have at most " + NatToString(bound) + " items"
  {
    FieldError(path, TooMany, Count(actual), "must have at most " + NatToString(bound) + " items")
  }

  function ForbiddenError(path: Path, detail: string): (e: FieldError)
    ensures e.path == path && e.kind == Forbidden && e.badValue == NoValue && e.detail == detail
  {
    FieldError(path, Forbidden, NoValue, detail)
  }

  // ---------------------------------------------------------------------------
  // Decimal numerals (used for list indices and quantities)
  // ---------------------------------------------------------------------------

  predicate IsDigit(c: char) { '0' <= c <= '9' }

  predicate AllDigits(s: string) { forall i :: 0 <= i < |s| ==> IsDigit(s[i]) }

  function DigitChar(d: nat): (c: char)
    requires d < 10
    ensures IsDigit(c) && c as int - '0' as int == d
  {
    ['0', '1', '2', '3', '4', '5', '6', '7', '8', '9'][d]
  }

  /** The value of a string of decimal digits (the empty string reads as 0). */
  function DecimalValue(s: string): nat
    requires AllDigits(s)
  {
    if s == [] then 0
    else DecimalValue(s[..|s| - 1]) * 10 + (s[|s| - 1] as int - '0' as int)
  }

  /** The shortest decimal numeral of n: non-empty, digits only, no leading zero. */
  function NatToString(n: nat): (s: string)
    ensures s != [] && AllDigits(s)
    ensures |s| > 1 ==> s[0] != '0'
  {
    if n < 10 then [DigitChar(n)] else NatToString(n / 10) + [DigitChar(n % 10)]
  }

  /** Reading a rendered numeral back gives the number it was rendered from. */
  lemma {:induction false} DecimalRoundTrip(n: nat)
    ensures DecimalValue(NatToString(n)) == n
  {
    var s := NatToString(n);
    if n >= 10 {
      var front := NatToString(n / 10);
      assert s == front + [DigitChar(n % 10)];
      assert s[..|s| - 1] == front;
      DecimalRoundTrip(n / 10);
    }
  }

  /** Distinct numbers render as distinct numerals. */
  lemma NatToStringInjective(m: nat, n: nat)
    ensures NatToString(m) == NatToString(n) ==> m == n
  {
    DecimalRoundTrip(m);
    DecimalRoundTrip(n);
  }

  // ---------------------------------------------------------------------------
  // Rendering (field.Path.String, field.Error.Error)
  // ---------------------------------------------------------------------------

  function SegmentString(s: Segment, first: bool): string
  {
    match s
    case Child(name) => if first then name else "." + name
    case Index(i) => "[" + NatToString(i) + "]"
  }

  /** Dot/bracket notation: the root name, `.child` per child, `[i]` per index. */
  function PathString(p: Path): string
  {
    if p == [] then "" else PathString(p[..|p| - 1]) + SegmentString(p[|p| - 1], |p| == 1)
  }

  function KindString(k: ErrorKind): string
  {
    match k
    case Required => "Required value"
    case Invalid => "Invalid value"
    case Duplicate => "Duplicate value"
    case TooMany => "Too many"
    case Forbidden => "Forbidden"
  }

  /** A string value is shown in double quotes, a quantity as a numeral. */
  function BadValueString(v: BadValue): string
  {
    match v
    case NoValue => ""
    case Text(s) => "\"" + s + "\""
    case Count(n) => NatToString(n)
  }

  /**
   * The message after the path: the kind, then (except for Required and
   * Forbidden, which never show the value) the bad value, then the detail
   * when there is one.
   */
  function ErrorBody(e: FieldError): string
  {
    var head :=
      if e.kind == Required || e.kind == Forbidden then KindString(e.kind)
      else KindString(e.kind) + ": " + BadValueString(e.badValue);
    if e.detail == [] then head else head + ": " + e.detail
  }

  /** The canonical one-line message of an error: `<path>: <body>` (field.Error.Error). */
  function ErrorString(e: FieldError): string
  {
    PathString(e.path) + ": " + ErrorBody(e)
  }

  /** A child path renders as its parent, a dot and the child's name. */
  lemma PathStringChild(p: Path, name: string)
    requires p != []
    ensures PathString(p + [Child(name)]) == PathString(p) + "." + name
  {
    assert (p + [Child(name)])[..|p|] == p;
  }

  /** An index path renders as its parent followed by the bracketed index. */
  lemma PathStringIndex(p: Path, i: nat)
    ensures PathString(p + [Index(i)]) == PathString(p) + "[" + NatToString(i) + "]"
  {
    var q := p + [Index(i)];
    assert q[..|p|] == p && q[|p|] == Index(i);
    assert PathString(q) == PathString(p) + SegmentString(Index(i), |q| == 1);
  }

  // The message shapes of the five constructors, as the expected strings of
  // the test suite spell them. Each is proved in two steps: the body of the
  // error in terms of its parts, then a merge of the literal pieces that holds
  // for any path, value and detail text. The `*Text` lemmas are that merge
  // step only: solver plumbing that models nothing by itself.

  lemma RequiredText(a: string, d: string)
    ensures a + ": " + "Required value" == a + ": Required value"
    ensures a + ": " + ("Required value" + ": " + d) == a + ": Required value: " + d
  {
    assert ": " + "Required value" == ": Required value";
    assert ": Required value" + ": " == ": Required value: ";
  }

  lemma RequiredMessage(p: Path, d: string)
    ensures ErrorString(RequiredError(p, "")) == PathString(p) + ": Required value"
    ensures d != "" ==> ErrorString(RequiredError(p, d)) == PathString(p) + ": Required value: " + d
  {
    assert ErrorBody(RequiredError(p, "")) == "Required value";
    assert d != "" ==> ErrorBody(RequiredError(p, d)) == "Required value" + ": " + d;
    RequiredText(PathString(p), d);
  }

  lemma InvalidText(a: string, v: string, d: string)
    ensures a + ": " + ("Invalid value" + ": " + ("\"" + v + "\"") + ": " + d)
         == a + ": Invalid value: \"" + v + "\": " + d
  {
    assert ": " + "Invalid value" + ": " + "\"" == ": Invalid value: \"";
    assert "\"" + ": " == "\": ";
  }

  lemma InvalidMessage(p: Path, v: string, d: string)
    requires d != ""
    ensures ErrorString(InvalidError(p, v, d)) == PathString(p) + ": Invalid value: \"" + v + "\": " + d
  {
    assert ErrorBody(InvalidError(p, v, d)) == "Invalid value" + ": " + ("\"" + v + "\"") + ": " + d;
    InvalidText(PathString(p), v, d);
  }

  lemma DuplicateText(a: string, v: string)
    ensures a + ": " + ("Duplicate value" + ": " + ("\"" + v + "\"")) == a + ": Duplicate value: \"" + v + "\""
  {
    assert ": " + "Duplicate value" + ": " + "\"" == ": Duplicate value: \"";
  }

  lemma DuplicateMessage(p: Path, v: string)
    ensures ErrorString(DuplicateError(p, v)) == PathString(p) + ": Duplicate value: \"" + v + "\""
  {
    assert ErrorBody(DuplicateError(p, v)) == "Duplicate value" + ": " + ("\"" + v + "\"");
    DuplicateText(PathString(p), v);
  }

  lemma TooManyText(a: string, x: string, y: string)
    ensures a + ": " + ("Too many" + ": " + x + ": " + ("must have at most " + y + " items"))
         == a + ": Too many: " + x + ": must have at most " + y + " items"
  {
    assert ": " + "Too many" + ": " == ": Too many: ";
    assert ": " + "must have at most " == ": must have at most ";
  }

  lemma TooManyMessage(p: Path, n: nat, m: nat)
    ensures ErrorString(TooManyError(p, n, m))
         == PathString(p) + ": Too many: " + NatToString(n) + ": must have at most " + NatToString(m) + " items"
  {
    var x, y := NatToString(n), NatToString(m);
    assert ErrorBody(TooManyError(p, n, m)) == "Too many" + ": " + x + ": " + ("must have at most " + y + " items");
    TooManyText(PathString(p), x, y);
  }

  lemma ForbiddenText(a: string, d: string)
    ensures a + ": " + ("Forbidden" + ": " + d) == a + ": Forbidden: " + d
  {
    assert ": " + "Forbidden" + ": " == ": Forbidden: ";
  }

  lemma ForbiddenMessage(p: Path, d: string)
    requires d != ""
    ensures ErrorString(ForbiddenError(p, d)) == PathString(p) + ": Forbidden: " + d
  {
    assert ErrorBody(ForbiddenError(p, d)) == "Forbidden" + ": " + d;
    ForbiddenText(PathString(p), d);
  }

  /**
   * The messages of a list of errors, in the same order; defined from the
   * back, the way the rendering loop builds it.
   */
  function Rendered(list: ErrorList): seq<string>
  {
    if list == [] then []
    else Rendered(list[..|list| - 1]) + [ErrorString(list[|list| - 1])]
  }

  /** One message per error, the i-th message rendering the i-th error. */
  lemma {:induction false} RenderedPointwise(list: ErrorList)
    ensures |Rendered(list)| == |list|
    ensures forall i :: 0 <= i < |list| ==> Rendered(list)[i] == ErrorString(list[i])
  {
    if list != [] {
      var init := list[..|list| - 1];
      RenderedPointwise(init);
      assert Rendered(list) == Rendered(init) + [ErrorString(list[|list| - 1])];
      forall i | 0 <= i < |list|
        ensures Rendered(list)[i] == ErrorString(list[i])
      {
        if i < |list| - 1 {
          assert list[i] == init[i];
        }
      }
    }
  }

  /**
   * Renders every error of a list, in order (errorListToStrings of the test
   * suite): the i-th string is the message of the i-th error.
   */
  method ErrorListToStrings(list: ErrorList) returns (result: seq<string>)
    ensures result == Rendered(list)
    ensures |result| == |list|
    ensures forall i :: 0 <= i < |list| ==> result[i] == ErrorString(list[i])
  {
    result := [];
    var i := 0;
    while i < |list|
      invariant i <= |list|
      invariant result == Rendered(list[..i])
    {
      assert list[..i + 1][..i] == list[..i];
      result := result + [ErrorString(list[i])];
      i := i + 1;
    }
    assert list[..i] == list;
    RenderedPointwise(list);
  }
}
