/**
 * The part of the zod schema library that the rat-sighting schema is built from:
 * a schema is a value of `Schema`, and `Parse` is zod's `safeParse` for it.
 *
 * zod reports every problem it finds as an issue: a code and the path, from the
 * parsed value down, of the part that has the problem. The order in which zod lists
 * the issues is not modelled; `Parse` returns them as a set.
 */
module Zod {
  import opened Wrappers
  import opened JsValues

  datatype Schema =
    | Str                                    // z.string()
    | Number                                 // z.number()
    | Literal(literal: string)               // z.literal(literal)
    | Enum(options: seq<string>)             // z.enum(options)
    | CoerceNumber                           // z.coerce.number()
    | CoerceDate                             // z.coerce.date()
    | Optional(inner: Schema)                // inner.optional()
    | NaAsUndefined(inner: Schema)           // z.preprocess reading "N/A" as undefined, then inner
    | Tuple(items: seq<Schema>)              // z.tuple(items)
    | StrictObject(shape: map<string, Schema>) // z.object(shape).strict()
    | ArrayOf(element: Schema)               // z.array(element)

  datatype PathSegment = Key(key: string) | Index(index: nat)

  /** zod's issue codes, as far as the schemas above can raise them. */
  datatype IssueCode =
    | InvalidType
    | InvalidLiteral
    | InvalidEnumValue
    | InvalidDate
    | TooSmall
    | TooBig
    | UnrecognizedKeys(keys: set<string>)

  datatype Issue = Issue(path: seq<PathSegment>, code: IssueCode) {
    /** The same issue, seen from the object or array that holds the value at `segment`. */
    function Under(segment: PathSegment): Issue {
      Issue([segment] + path, code)
    }
  }

  type Outcome = Result<Value, set<Issue>>

  /** The sentinel that the `incident_zip` preprocessing step turns into undefined. */
  const NotAvailable: string := "N/A"

  function IssuesOf(r: Outcome): set<Issue> {
    if r.Failure? then r.error else {}
  }

  function ValueOr(r: Outcome): Value {
    if r.Success? then r.value else JUndefined
  }

  function Reject(code: IssueCode): Outcome {
    Failure({Issue([], code)})
  }

  /**
   * `s.safeParse(v)`. A failure always carries at least one issue, as in zod, where a
   * parse fails exactly when it has added an issue.
   */
  function Parse(c: Coercion, s: Schema, v: Value): (r: Outcome)
    ensures r.Failure? ==> r.error != {}
    decreases s, 1
  {
    match s
    case Str =>
      if v.JStr? then Success(v) else Reject(InvalidType)
    case Number =>
      if v.JNum? then Success(v) else Reject(InvalidType)
    case Literal(literal) =>
      if v == JStr(literal) then Success(v) else Reject(InvalidLiteral)
    case Enum(options) =>
      if !v.JStr? then Reject(InvalidType)
      else if v.str in options then Success(v)
      else Reject(InvalidEnumValue)
    case CoerceNumber =>
      (match ToNumber(c, v)
       case Some(n) => Success(JNum(n))
       case None => Reject(InvalidType))
    case CoerceDate =>
      (match ToDate(c, v)
       case Some(t) => Success(JDate(t))
       case None => Reject(InvalidDate))
    case Optional(inner) =>
      if v == JUndefined then Success(JUndefined) else Parse(c, inner, v)
    case NaAsUndefined(inner) =>
      Parse(c, inner, if v == JStr(NotAvailable) then JUndefined else v)
    case Tuple(items) =>
      if !v.JArr? then Reject(InvalidType)
      else if |v.elems| < |items| then Reject(TooSmall)
      else
        // a longer array is reported as too big, and its first |items| elements are still checked
        var rs := ItemOutcomes(c, items, v.elems);
        var issues := (if |v.elems| > |items| then {Issue([], TooBig)} else {}) + IndexedIssues(rs);
        if issues == {} then Success(JArr(Values(rs))) else Failure(issues)
    case StrictObject(shape) =>
      if !v.JObj? then Reject(InvalidType)
      else
        var rs := FieldOutcomes(c, shape, v.fields);
        var unknown := v.fields.Keys - shape.Keys;
        var issues := KeyedIssues(rs) + (if unknown != {} then {Issue([], UnrecognizedKeys(unknown))} else {});
        if issues == {} then
          // a declared key is kept when the input has it, even if its value parsed to undefined
          Success(JObj(map k | k in rs && (k in v.fields || ValueOr(rs[k]) != JUndefined) :: ValueOr(rs[k])))
        else Failure(issues)
    case ArrayOf(element) =>
      if !v.JArr? then Reject(InvalidType)
      else
        var rs := ElementOutcomes(c, element, v.elems);
        var issues := IndexedIssues(rs);
        if issues == {} then Success(JArr(Values(rs))) else Failure(issues)
  }

  /** What each declared key of an object parses to. */
  function FieldOutcomes(c: Coercion, shape: map<string, Schema>, fields: map<string, Value>): map<string, Outcome>
    decreases StrictObject(shape), 0
  {
    map k | k in shape :: Parse(c, shape[k], Get(fields, k))
  }

  /** What each element of an array parses to. */
  function ElementOutcomes(c: Coercion, element: Schema, elems: seq<Value>): seq<Outcome>
    decreases ArrayOf(element), 0
  {
    seq(|elems|, i requires 0 <= i < |elems| => Parse(c, element, elems[i]))
  }

  /** What the first |items| elements of an array parse to under a tuple's items. */
  function ItemOutcomes(c: Coercion, items: seq<Schema>, elems: seq<Value>): seq<Outcome>
    requires |items| <= |elems|
    decreases Tuple(items), 0
  {
    seq(|items|, i requires 0 <= i < |items| => Parse(c, items[i], elems[i]))
  }

  /** The issues of the parts of an object, each under its key. */
  function KeyedIssues(rs: map<string, Outcome>): set<Issue> {
    set k, issue | k in rs && issue in IssuesOf(rs[k]) :: issue.Under(Key(k))
  }

  /** The issues of the elements of an array, each under its index. */
  function IndexedIssues(rs: seq<Outcome>): set<Issue> {
    set i, issue | 0 <= i < |rs| && issue in IssuesOf(rs[i]) :: issue.Under(Index(i))
  }

  function Values(rs: seq<Outcome>): seq<Value> {
    seq(|rs|, i requires 0 <= i < |rs| => ValueOr(rs[i]))
  }

  /** The schemas that let a value be absent: `.optional()`, also behind the `N/A` preprocessing. */
  predicate AcceptsAbsence(s: Schema) {
    match s
    case Optional(_) => true
    case NaAsUndefined(inner) => AcceptsAbsence(inner)
    case _ => false
  }

  /** An absent value passes exactly the schemas that allow absence, and stays absent. */
  lemma {:induction false} ParseUndefined(c: Coercion, s: Schema)
    ensures Parse(c, s, JUndefined).Success? <==> AcceptsAbsence(s)
    ensures Parse(c, s, JUndefined).Success? ==> Parse(c, s, JUndefined).value == JUndefined
  {
    match s
    case NaAsUndefined(inner) => ParseUndefined(c, inner);
    case _ =>
  }

  /** `.optional()` hands every defined value to the schema it wraps. */
  lemma ParseOptional(c: Coercion, inner: Schema, v: Value)
    requires v != JUndefined
    ensures Parse(c, Optional(inner), v) == Parse(c, inner, v)
  {
  }

  /** The parts of an object raise no issue exactly when every part passed. */
  lemma KeyedIssuesEmpty(rs: map<string, Outcome>)
    requires forall k :: k in rs && rs[k].Failure? ==> rs[k].error != {}
    ensures KeyedIssues(rs) == {} <==> forall k :: k in rs ==> rs[k].Success?
  {
    if k :| k in rs && rs[k].Failure? {
      var issue :| issue in rs[k].error;
      assert issue.Under(Key(k)) in KeyedIssues(rs);
    }
  }

  /** The elements of an array raise no issue exactly when every element passed. */
  lemma IndexedIssuesEmpty(rs: seq<Outcome>)
    requires forall i :: 0 <= i < |rs| && rs[i].Failure? ==> rs[i].error != {}
    ensures IndexedIssues(rs) == {} <==> forall i :: 0 <= i < |rs| ==> rs[i].Success?
  {
    if i :| 0 <= i < |rs| && rs[i].Failure? {
      var issue :| issue in rs[i].error;
      assert issue.Under(Index(i)) in IndexedIssues(rs);
    }
  }

  /** A strict object passes exactly when it has no undeclared key and every declared key passes its schema. */
  lemma ObjectAccepts(c: Coercion, shape: map<string, Schema>, fields: map<string, Value>)
    ensures Parse(c, StrictObject(shape), JObj(fields)).Success? <==>
              fields.Keys <= shape.Keys && forall k :: k in shape ==> Parse(c, shape[k], Get(fields, k)).Success?
  {
    var rs := FieldOutcomes(c, shape, fields);
    assert rs.Keys == shape.Keys && forall k :: k in shape ==> rs[k] == Parse(c, shape[k], Get(fields, k));
    KeyedIssuesEmpty(rs);
    if k :| k in fields && k !in shape {
      assert k in fields.Keys - shape.Keys;
    }
  }

  /**
   * A strict object passes exactly when it has no undeclared key and every declared
   * key passes its schema; the result then has the input's keys, each holding what
   * its schema made of the input's value.
   */
  lemma ParseObject(c: Coercion, shape: map<string, Schema>, fields: map<string, Value>)
    ensures var r := Parse(c, StrictObject(shape), JObj(fields));
      && (r.Success? <==>
            fields.Keys <= shape.Keys && forall k :: k in shape ==> Parse(c, shape[k], Get(fields, k)).Success?)
      && (r.Success? ==>
            r.value.JObj? && r.value.fields.Keys == fields.Keys
            && forall k :: k in fields ==> r.value.fields[k] == Parse(c, shape[k], fields[k]).value)
  {
    ObjectAccepts(c, shape, fields);
    var r := Parse(c, StrictObject(shape), JObj(fields));
    if r.Success? {
      var rs := FieldOutcomes(c, shape, fields);
      var out := map k | k in rs && (k in fields || ValueOr(rs[k]) != JUndefined) :: ValueOr(rs[k]);
      assert r.value == JObj(out);
      forall k | k in shape && k !in fields
        ensures ValueOr(rs[k]) == JUndefined
      {
        ParseUndefined(c, shape[k]);
      }
      assert out.Keys == fields.Keys;
    }
  }

  /** An issue found at a declared key makes the whole object fail, with the issue under that key. */
  lemma ObjectFieldIssue(c: Coercion, shape: map<string, Schema>, fields: map<string, Value>, k: string, issue: Issue)
    requires k in shape && issue in IssuesOf(Parse(c, shape[k], Get(fields, k)))
    ensures Parse(c, StrictObject(shape), JObj(fields)).Failure?
    ensures issue.Under(Key(k)) in Parse(c, StrictObject(shape), JObj(fields)).error
  {
    assert issue.Under(Key(k)) in KeyedIssues(FieldOutcomes(c, shape, fields));
  }

  /** Conversely, every issue of an object is either its own or one found at a declared key. */
  lemma ObjectIssueOrigin(c: Coercion, shape: map<string, Schema>, fields: map<string, Value>, issue: Issue)
    requires issue in IssuesOf(Parse(c, StrictObject(shape), JObj(fields)))
    ensures issue.path == [] ||
            (issue.path[0].Key? && issue.path[0].key in shape &&
             Issue(issue.path[1..], issue.code) in IssuesOf(Parse(c, shape[issue.path[0].key], Get(fields, issue.path[0].key))))
  {
    var rs := FieldOutcomes(c, shape, fields);
    if issue in KeyedIssues(rs) {
      var k, inner :| k in rs && inner in IssuesOf(rs[k]) && issue == inner.Under(Key(k));
      assert issue.path[1..] == inner.path;
    }
  }

  /** `.strict()`: keys outside the shape make the object fail, all of them named in one issue. */
  lemma ObjectUnknownKeys(c: Coercion, shape: map<string, Schema>, fields: map<string, Value>)
    requires !(fields.Keys <= shape.Keys)
    ensures Parse(c, StrictObject(shape), JObj(fields)).Failure?
    ensures Issue([], UnrecognizedKeys(fields.Keys - shape.Keys)) in Parse(c, StrictObject(shape), JObj(fields)).error
  {
    var k :| k in fields && k !in shape;
    assert k in fields.Keys - shape.Keys;
  }

  /**
   * An array passes exactly when every element passes; the result has the same
   * length, and its i-th element is what the element schema made of the i-th input.
   */
  lemma ParseArray(c: Coercion, element: Schema, elems: seq<Value>)
    ensures var r := Parse(c, ArrayOf(element), JArr(elems));
      && (r.Success? <==> forall i :: 0 <= i < |elems| ==> Parse(c, element, elems[i]).Success?)
      && (r.Success? ==>
            r.value.JArr? && |r.value.elems| == |elems|
            && forall i :: 0 <= i < |elems| ==> r.value.elems[i] == Parse(c, element, elems[i]).value)
  {
    var rs := ElementOutcomes(c, element, elems);
    assert |rs| == |elems| && forall i :: 0 <= i < |elems| ==> rs[i] == Parse(c, element, elems[i]);
    IndexedIssuesEmpty(rs);
  }

  /** An issue found in the i-th element makes the whole array fail, with the issue under index i. */
  lemma ArrayElementIssue(c: Coercion, element: Schema, elems: seq<Value>, i: nat, issue: Issue)
    requires i < |elems| && issue in IssuesOf(Parse(c, element, elems[i]))
    ensures Parse(c, ArrayOf(element), JArr(elems)).Failure?
    ensures issue.Under(Index(i)) in Parse(c, ArrayOf(element), JArr(elems)).error
  {
    assert issue.Under(Index(i)) in IndexedIssues(ElementOutcomes(c, element, elems));
  }

  /**
   * A tuple passes exactly when the array has as many elements as the tuple has
   * items and each element passes its item; the result holds the parsed elements.
   */
  lemma ParseTuple(c: Coercion, items: seq<Schema>, elems: seq<Value>)
    ensures var r := Parse(c, Tuple(items), JArr(elems));
      && (r.Success? <==>
            |elems| == |items| && forall i :: 0 <= i < |items| ==> Parse(c, items[i], elems[i]).Success?)
      && (r.Success? ==>
            r.value.JArr? && |r.value.elems| == |items|
            && forall i :: 0 <= i < |items| ==> r.value.elems[i] == Parse(c, items[i], elems[i]).value)
  {
    if |elems| >= |items| {
      var rs := ItemOutcomes(c, items, elems);
      assert |rs| == |items| && forall i :: 0 <= i < |items| ==> rs[i] == Parse(c, items[i], elems[i]);
      IndexedIssuesEmpty(rs);
    }
  }
}
