/**
  The dynamically typed JavaScript values the query builders inspect, with the
  handful of language operations they rely on: truthiness and filtering by it,
  string conversion (template literals and property keys) and the unwrapping
  of references to their `_id`.
 */
module JsValues {

  datatype Option<+T> = None | Some(value: T) {
    function GetOr(default: T): T {
      match this
      case Some(v) => v
      case None => default
    }
  }

  /** A JavaScript value as far as this code looks into it. `ref` tells objects
      apart (a `Set` keeps objects by identity and strings by content); `id` is
      the object's `_id` property when it is present and not null. */
  datatype Value = Undefined | Null | Str(s: string) | Object(ref: nat, id: Option<string>)

  /** JavaScript truthiness: undefined, null and the empty string are falsy. */
  predicate Truthy(v: Value) {
    match v
    case Undefined => false
    case Null => false
    case Str(s) => s != ""
    case Object(_, _) => true
  }

  /** The string a template literal or a property lookup makes of `v`. */
  function ToText(v: Value): string {
    match v
    case Undefined => "undefined"
    case Null => "null"
    case Str(s) => s
    case Object(_, _) => "[object Object]"
  }

  /** Reference unwrapping: a reference with an `_id` yields that id; anything
      else (a raw id, an object without `_id`, undefined, null) falls back to
      the value itself. */
  function Unwrap(v: Value): (u: Value)
    ensures v.Object? && v.id.Some? ==> u == Str(v.id.value)
    ensures v.Object? && v.id.None? ==> u == v
    ensures !v.Object? ==> u == v
    ensures u.Object? ==> u.id.None?
  {
    match v
    case Object(_, Some(id)) => Str(id)
    case _ => v
  }

  /** String values, as pushed by a template literal or read from a lookup table. */
  function Strs(ss: seq<string>): seq<Value> {
    seq(|ss|, i requires 0 <= i < |ss| => Str(ss[i]))
  }

  /** Filtering a list down to its truthy entries, in order. */
  function KeepTruthy(xs: seq<Value>): (r: seq<Value>)
    ensures forall x :: x in r <==> x in xs && Truthy(x)
    ensures forall i :: 0 <= i < |r| ==> Truthy(r[i])
    ensures |r| <= |xs|
  {
    if xs == [] then []
    else (if Truthy(xs[0]) then [xs[0]] else []) + KeepTruthy(xs[1..])
  }

  /** Filtering distributes over concatenation: the filtered list of
      `a + b` keeps the survivors of `a` before those of `b`. */
  lemma {:induction false} KeepTruthyAppend(a: seq<Value>, b: seq<Value>)
    ensures KeepTruthy(a + b) == KeepTruthy(a) + KeepTruthy(b)
  {
    if a == [] {
      assert a + b == b;
    } else {
      assert (a + b)[1..] == a[1..] + b;
      KeepTruthyAppend(a[1..], b);
    }
  }

  /** A list with no falsy entry passes the filter unchanged. */
  lemma {:induction false} KeepTruthyOfTruthy(xs: seq<Value>)
    requires forall i :: 0 <= i < |xs| ==> Truthy(xs[i])
    ensures KeepTruthy(xs) == xs
  {
    if xs != [] {
      KeepTruthyOfTruthy(xs[1..]);
    }
  }

  /** The position of the first occurrence of `x` in `xs`. */
  function IndexOf(xs: seq<Value>, x: Value): (i: nat)
    requires x in xs
    ensures i < |xs| && xs[i] == x && x !in xs[..i]
  {
    if xs[0] == x then 0 else 1 + IndexOf(xs[1..], x)
  }

  /** Appending an element does not move the first occurrence of an element
      already present. */
  lemma {:induction false} IndexOfAppend(xs: seq<Value>, y: Value, x: Value)
    requires x in xs
    ensures IndexOf(xs + [y], x) == IndexOf(xs, x)
  {
    if xs[0] != x {
      assert (xs + [y])[1..] == xs[1..] + [y];
      IndexOfAppend(xs[1..], y, x);
    }
  }

  /** Filtering keeps the relative order of first occurrences. */
  lemma {:induction false} KeepTruthyKeepsOrder(xs: seq<Value>, x: Value, y: Value)
    requires x in xs && y in xs && Truthy(x) && Truthy(y) && x != y
    ensures IndexOf(KeepTruthy(xs), x) < IndexOf(KeepTruthy(xs), y) <==> IndexOf(xs, x) < IndexOf(xs, y)
  {
    var k := KeepTruthy(xs);
    var rest := KeepTruthy(xs[1..]);
    if xs[0] == x {
      assert k[0] == x;
    } else if xs[0] == y {
      assert k[0] == y;
    } else {
      KeepTruthyKeepsOrder(xs[1..], x, y);
      if Truthy(xs[0]) {
        assert k == [xs[0]] + rest;
        assert IndexOf(k, x) == 1 + IndexOf(rest, x) by { assert k[1..] == rest; }
        assert IndexOf(k, y) == 1 + IndexOf(rest, y) by { assert k[1..] == rest; }
      } else {
        assert k == rest;
      }
    }
  }
}
