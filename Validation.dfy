/** Schema validation in the manner of the zod library: a check either yields a
    typed value or a list of issues, each naming the path of the offending field.
    Every object schema reports the issues of ALL its fields, in declaration order. */
module Validation {
  import opened Json

  datatype Issue = Issue(path: seq<string>, message: string)

  /** A payload validator: takes the (possibly missing) value and yields the typed
      value or the issues found. The request pipeline is generic in it. */
  type Schema<T> = Option<Json> -> Result<T, seq<Issue>>

  /** The issue for a value of the wrong JSON type; a missing value is "Required". */
  function TypeIssue(path: seq<string>, v: Option<Json>, expected: string): (i: Issue)
    ensures i.path == path
    ensures v.None? <==> i.message == "Required"
  {
    Issue(path, if v.None? then "Required" else "Expected " + expected + ", received " + TypeName(v.value))
  }

  function IssuesOf<T>(r: Result<T, seq<Issue>>): (issues: seq<Issue>)
    ensures r.Failure? ==> issues == r.error
    ensures r.Success? ==> issues == []
  {
    match r
    case Success(_) => []
    case Failure(e) => e
  }

  /** `z.string()`. */
  function ExpectString(path: seq<string>, v: Option<Json>): (r: Result<string, seq<Issue>>)
    ensures r.Success? <==> v.Some? && v.value.JStr?
    ensures r.Success? ==> v == Some(JStr(r.value))
    ensures r.Failure? ==> r.error == [TypeIssue(path, v, "string")]
  {
    if v.Some? && v.value.JStr? then Success(v.value.s) else Failure([TypeIssue(path, v, "string")])
  }

  /** `z.string().optional()`: a missing value passes; `null` does not. */
  function ExpectOptionalString(path: seq<string>, v: Option<Json>): (r: Result<Option<string>, seq<Issue>>)
    ensures r.Success? <==> v.None? || v.value.JStr?
    ensures r == Success(None) <==> v.None?
    ensures r.Success? && r.value.Some? ==> v == Some(JStr(r.value.value))
    ensures r.Failure? ==> r.error == [TypeIssue(path, v, "string")]
  {
    match v
    case None => Success(None)
    case Some(JStr(s)) => Success(Some(s))
    case Some(_) => Failure([TypeIssue(path, v, "string")])
  }

  /** `z.number()`. */
  function ExpectNumber(path: seq<string>, v: Option<Json>): (r: Result<int, seq<Issue>>)
    ensures r.Success? <==> v.Some? && v.value.JNum?
    ensures r.Success? ==> v == Some(JNum(r.value))
    ensures r.Failure? ==> r.error == [TypeIssue(path, v, "number")]
  {
    if v.Some? && v.value.JNum? then Success(v.value.n) else Failure([TypeIssue(path, v, "number")])
  }

  /** `z.boolean()`. */
  function ExpectBool(path: seq<string>, v: Option<Json>): (r: Result<bool, seq<Issue>>)
    ensures r.Success? <==> v.Some? && v.value.JBool?
    ensures r.Success? ==> v == Some(JBool(r.value))
    ensures r.Failure? ==> r.error == [TypeIssue(path, v, "boolean")]
  {
    if v.Some? && v.value.JBool? then Success(v.value.b) else Failure([TypeIssue(path, v, "boolean")])
  }

  /** `z.object(...)` applied to a value that is not an object. */
  function NotAnObject(path: seq<string>, v: Option<Json>): (issues: seq<Issue>)
    ensures |issues| == 1 && issues[0].path == path
  {
    [TypeIssue(path, v, "object")]
  }

  /** `.min(n, message)` on a form string field. */
  function MinLength(field: string, s: string, n: nat, message: string): (issues: seq<Issue>)
    ensures issues == [] <==> |s| >= n
    ensures issues != [] ==> issues == [Issue([field], message)]
  {
    if |s| >= n then [] else [Issue([field], message)]
  }

  /** `.length(n, message)` on a form string field. */
  function ExactLength(field: string, s: string, n: nat, message: string): (issues: seq<Issue>)
    ensures issues == [] <==> |s| == n
    ensures issues != [] ==> issues == [Issue([field], message)]
  {
    if |s| == n then [] else [Issue([field], message)]
  }

  /** `.email(message)`; the address syntax itself is the abstract predicate `isEmail`. */
  function EmailCheck(field: string, s: string, isEmail: string -> bool, message: string): (issues: seq<Issue>)
    ensures issues == [] <==> isEmail(s)
    ensures issues != [] ==> issues == [Issue([field], message)]
  {
    if isEmail(s) then [] else [Issue([field], message)]
  }

  /** Validates `items[from..]` with `elem`, each at its index below `path`,
      collecting the issues of every element. */
  function ParseItems<T>(path: seq<string>, items: seq<Json>, from: nat,
                         elem: (seq<string>, Option<Json>) -> Result<T, seq<Issue>>): (r: Result<seq<T>, seq<Issue>>)
    requires from <= |items|
    decreases |items| - from
    ensures r.Success? <==> forall k :: from <= k < |items| ==> elem(path + [NatToDecimal(k)], Some(items[k])).Success?
    ensures r.Success? ==>
              && |r.value| == |items| - from
              && forall k :: from <= k < |items| ==> elem(path + [NatToDecimal(k)], Some(items[k])) == Success(r.value[k - from])
  {
    if from == |items| then Success([])
    else
      var head := elem(path + [NatToDecimal(from)], Some(items[from]));
      var tail := ParseItems(path, items, from + 1, elem);
      if head.Success? && tail.Success? then Success([head.value] + tail.value)
      else Failure(IssuesOf(head) + IssuesOf(tail))
  }

  /** `z.array(elem)`. */
  function ParseArray<T>(path: seq<string>, v: Option<Json>,
                         elem: (seq<string>, Option<Json>) -> Result<T, seq<Issue>>): (r: Result<seq<T>, seq<Issue>>)
    ensures r.Success? ==> v.Some? && v.value.JArr? && |r.value| == |v.value.items|
    ensures v.Some? && v.value.JArr? ==> r == ParseItems(path, v.value.items, 0, elem)
  {
    match v
    case Some(JArr(items)) => ParseItems(path, items, 0, elem)
    case _ => Failure([TypeIssue(path, v, "array")])
  }

  /** An array whose every element validates to the matching entry of `xs`
      validates to `xs`. */
  lemma {:induction false} ParseItemsAll<T>(path: seq<string>, items: seq<Json>, from: nat,
                                           elem: (seq<string>, Option<Json>) -> Result<T, seq<Issue>>, xs: seq<T>)
    requires from <= |items| && |xs| == |items|
    requires forall k :: from <= k < |items| ==> elem(path + [NatToDecimal(k)], Some(items[k])) == Success(xs[k])
    ensures ParseItems(path, items, from, elem) == Success(xs[from..])
    decreases |items| - from
  {
    if from < |items| {
      ParseItemsAll(path, items, from + 1, elem, xs);
      assert xs[from..] == [xs[from]] + xs[from + 1..];
    }
  }
}
