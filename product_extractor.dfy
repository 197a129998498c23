/**
 * The validator the AI product extractor applies to the language model's
 * answer: cut out the JSON object, parse it, demand the four product fields,
 * a positive numeric price and a known category, and hand back the parsed
 * object untouched. Every failure is reported as one and the same error.
 */
module ProductExtractor {
  import opened Wrappers

  /**
   * A JavaScript value as `JSON.parse` can produce it, or `undefined` for an
   * absent field. A number literal beyond the largest double (`1e999`) parses
   * as an infinity; `JSON.parse` never yields `NaN`. Finite numbers are reals,
   * already rounded by the parser.
   */
  datatype JsValue = Undefined | Null | Bool(b: bool) | Number(x: real) | Infinity(negative: bool) | Str(s: string) | Compound

  /** JavaScript truthiness: `undefined`, `null`, `false`, `0` and `""` are falsy; both infinities are truthy. */
  predicate Truthy(v: JsValue) {
    match v
    case Undefined => false
    case Null => false
    case Infinity(_) => true
    case Bool(b) => b
    case Number(x) => x != 0.0
    case Str(s) => s != ""
    case Compound => true
  }

  /** A parsed JSON object: a field that is not a key reads as `undefined`. */
  type JsObject = map<string, JsValue>

  function Get(o: JsObject, field: string): JsValue {
    if field in o then o[field] else Undefined
  }

  const RequiredFields: seq<string> := ["name", "description", "price", "category"]
  const ValidCategories: seq<string> := ["food", "drink", "dessert"]

  /** The one error the extractor ever reports. */
  const ParseFailure: string := "Failed to parse AI extraction result"

  /** The reasons a validation step throws; all of them are replaced by `ParseFailure`. */
  datatype ExtractionError = NoJsonFound | MalformedJson | MissingField(field: string) | InvalidPrice | InvalidCategory

  /** `typeof v === 'number' && !(v <= 0)`: a positive finite number, or positive infinity. */
  predicate PositiveNumber(v: JsValue) {
    (v.Number? && v.x > 0.0) || v == Infinity(false)
  }

  /** What a product record must satisfy, stated in one place. */
  predicate IsValidProduct(o: JsObject) {
    && (forall i :: 0 <= i < |RequiredFields| ==> Truthy(Get(o, RequiredFields[i])))
    && PositiveNumber(Get(o, "price"))
    && Get(o, "category").Str? && Get(o, "category").s in ValidCategories
  }

  /** The first index of `c` in `s`. */
  function IndexOf(s: string, c: char): (r: Option<nat>)
    ensures r.Some? ==> r.value < |s| && s[r.value] == c && forall j :: 0 <= j < r.value ==> s[j] != c
    ensures r.None? ==> forall j :: 0 <= j < |s| ==> s[j] != c
  {
    if s == [] then None
    else if s[0] == c then Some(0)
    else match IndexOf(s[1..], c)
      case None => None
      case Some(k) => Some(k + 1)
  }

  /** The last index of `c` in `s`. */
  function LastIndexOf(s: string, c: char): (r: Option<nat>)
    ensures r.Some? ==> r.value < |s| && s[r.value] == c && forall j :: r.value < j < |s| ==> s[j] != c
    ensures r.None? ==> forall j :: 0 <= j < |s| ==> s[j] != c
  {
    if s == [] then None
    else if s[|s| - 1] == c then Some(|s| - 1)
    else LastIndexOf(s[..|s| - 1], c)
  }

  /** `span` sits at `i` in `output`, with no `{` before it and no `}` after it. */
  predicate SpanAt(output: string, i: int, span: string) {
    && 0 <= i && i + |span| <= |output| && output[i..i + |span|] == span
    && (forall k :: 0 <= k < i ==> output[k] != '{')
    && (forall k :: i + |span| <= k < |output| ==> output[k] != '}')
  }

  /**
   * `output.match(/\{[\s\S]*\}/)`: the leftmost `{` that has a `}` somewhere
   * after it, through the last `}` (the star is greedy).
   */
  function JsonSpan(output: string): (r: Option<string>)
    ensures r.Some? <==> exists i, j :: 0 <= i < j < |output| && output[i] == '{' && output[j] == '}'
    ensures r.Some? ==>
              && |r.value| >= 2 && r.value[0] == '{' && r.value[|r.value| - 1] == '}'
              && exists i :: SpanAt(output, i, r.value)
  {
    match (IndexOf(output, '{'), LastIndexOf(output, '}'))
    case (Some(i), Some(j)) =>
      if i < j then
        var span := output[i..j + 1];
        assert SpanAt(output, i, span);
        Some(span)
      else None
    case _ => None
  }

  /** The first required field that is missing or falsy: the `for` loop over `required`. */
  function FirstFalsy(fields: seq<string>, o: JsObject): (r: Option<string>)
    ensures r.None? <==> forall i :: 0 <= i < |fields| ==> Truthy(Get(o, fields[i]))
    ensures r.Some? ==> exists i :: 0 <= i < |fields| && fields[i] == r.value && !Truthy(Get(o, fields[i]))
                                    && forall j :: 0 <= j < i ==> Truthy(Get(o, fields[j]))
  {
    if fields == [] then None
    else if !Truthy(Get(o, fields[0])) then Some(fields[0])
    else
      var r := FirstFalsy(fields[1..], o);
      assert forall i :: 0 < i < |fields| ==> fields[i] == fields[1..][i - 1];
      r
  }

  /** The checks after parsing: required fields, then price, then category. */
  function Validate(o: JsObject): (r: Result<JsObject, ExtractionError>)
    ensures r.Success? <==> IsValidProduct(o)
    ensures r.Success? ==> r.value == o
    ensures r.Failure? && r.error.MissingField? ==> r.error.field in RequiredFields && !Truthy(Get(o, r.error.field))
    ensures r.Failure? ==> r.error.MissingField? || r.error == InvalidPrice || r.error == InvalidCategory
  {
    match FirstFalsy(RequiredFields, o)
    case Some(f) => Failure(MissingField(f))
    case None =>
      var price := Get(o, "price");
      var category := Get(o, "category");
      if !PositiveNumber(price) then Failure(InvalidPrice)
      else if !(category.Str? && category.s in ValidCategories) then Failure(InvalidCategory)
      else Success(o)
  }

  /** The validation steps with their own reasons; `parse` stands for `JSON.parse` (None: it threw). */
  function Extract(output: string, parse: string -> Option<JsObject>): (r: Result<JsObject, ExtractionError>)
    ensures JsonSpan(output).None? ==> r == Failure(NoJsonFound)
    ensures JsonSpan(output).Some? && parse(JsonSpan(output).value).None? ==> r == Failure(MalformedJson)
    ensures r.Success? <==>
              JsonSpan(output).Some? && parse(JsonSpan(output).value).Some?
              && IsValidProduct(parse(JsonSpan(output).value).value)
    ensures r.Success? ==> r.value == parse(JsonSpan(output).value).value
  {
    match JsonSpan(output)
    case None => Failure(NoJsonFound)
    case Some(span) =>
      match parse(span)
      case None => Failure(MalformedJson)
      case Some(o) => Validate(o)
  }

  /** `parseExtractionResult`: the parsed object when it is a valid product, otherwise the one error. */
  function ParseExtractionResult(output: string, parse: string -> Option<JsObject>): (r: Result<JsObject, string>)
    ensures r.Failure? ==> r.error == ParseFailure
    ensures r.Success? <==>
              JsonSpan(output).Some? && parse(JsonSpan(output).value).Some?
              && IsValidProduct(parse(JsonSpan(output).value).value)
    ensures r.Success? ==> r.value == parse(JsonSpan(output).value).value
  {
    match Extract(output, parse)
    case Success(o) => Success(o)
    case Failure(_) => Failure(ParseFailure)
  }

  /** A product whose price is zero never gets through, even though the field is present. */
  lemma ZeroPriceRejected(output: string, parse: string -> Option<JsObject>)
    requires JsonSpan(output).Some? && parse(JsonSpan(output).value).Some?
    requires Get(parse(JsonSpan(output).value).value, "price") == Number(0.0)
    ensures ParseExtractionResult(output, parse) == Failure(ParseFailure)
  {
    var o := parse(JsonSpan(output).value).value;
    assert !Truthy(Get(o, RequiredFields[2]));
  }

  /**
   * A price that overflowed to `Infinity` in parsing passes every check:
   * it is truthy, its type is number and it is not `<= 0`.
   */
  lemma OverflowedPriceAccepted(o: JsObject)
    requires Get(o, "price") == Infinity(false)
    requires Truthy(Get(o, "name")) && Truthy(Get(o, "description"))
    requires Get(o, "category") == Str("food")
    ensures Validate(o) == Success(o)
  {
  }

  /** A negative infinity is truthy but not positive, so the price check rejects it. */
  lemma NegativeInfinityRejected(o: JsObject)
    requires Get(o, "price") == Infinity(true)
    ensures Validate(o).Failure?
    ensures FirstFalsy(RequiredFields, o).None? ==> Validate(o) == Failure(InvalidPrice)
  {
  }
}
