/**
 * The values a context field or a condition argument can hold, the context
 * mapping itself, and the comparisons the built-in operators apply to values.
 */
module Values {

  /** A context value or a condition argument: a small closed set of kinds. */
  datatype Value =
    | Null
    | Int(n: int)
    | Str(s: string)
    | Bool(b: bool)
    | List(items: seq<Value>)

  /** A context: field name to value. */
  type Context = map<string, Value>

  /**
   * The effective context of one evaluation: the globals overlaid with the
   * call-site data, the call-site data winning on a key present in both.
   */
  function Overlay(globals: Context, data: Context): (r: Context)
    ensures r.Keys == globals.Keys + data.Keys
    ensures forall k :: k in data ==> r[k] == data[k]
    ensures forall k :: k in globals && k !in data ==> r[k] == globals[k]
  {
    globals + data
  }

  /** Whether `arg` is a list that contains `v` (an array's `includes`). */
  predicate Includes(arg: Value, v: Value) {
    arg.List? && v in arg.items
  }

  /** Lexicographic order on strings by code point, character by character; a proper prefix is smaller. */
  predicate StrLess(a: string, b: string) {
    |b| > 0 && (|a| == 0 || a[0] < b[0] || (a[0] == b[0] && StrLess(a[1..], b[1..])))
  }

  /**
   * The strict order `a < b` of two values of the same scalar kind: numbers
   * numerically, strings lexicographically, `false` before `true`. Values of
   * different kinds, null and lists are never ordered.
   */
  predicate Less(a: Value, b: Value) {
    match (a, b)
    case (Int(x), Int(y)) => x < y
    case (Str(x), Str(y)) => StrLess(x, y)
    case (Bool(x), Bool(y)) => !x && y
    case _ => false
  }

  /** Two values of the same scalar kind, between which `<`, `=` and `>` are meant to decide. */
  predicate Comparable(a: Value, b: Value) {
    (a.Null? && b.Null?) || (a.Int? && b.Int?) || (a.Str? && b.Str?) || (a.Bool? && b.Bool?)
  }

  lemma {:induction false} StrLessIrreflexive(a: string)
    ensures !StrLess(a, a)
  {
    if |a| > 0 {
      StrLessIrreflexive(a[1..]);
    }
  }

  lemma {:induction false} StrLessAsymmetric(a: string, b: string)
    requires StrLess(a, b)
    ensures !StrLess(b, a)
  {
    if |a| > 0 && a[0] == b[0] {
      StrLessAsymmetric(a[1..], b[1..]);
    }
  }

  lemma {:induction false} StrLessTotal(a: string, b: string)
    requires a != b
    ensures StrLess(a, b) || StrLess(b, a)
  {
    if |a| > 0 && |b| > 0 && a[0] == b[0] {
      assert a == [a[0]] + a[1..] && b == [b[0]] + b[1..];
      StrLessTotal(a[1..], b[1..]);
    }
  }

  /** On two values of the same scalar kind exactly one of `a == b`, `a < b`, `b < a` holds. */
  lemma Trichotomy(a: Value, b: Value)
    requires Comparable(a, b)
    ensures a == b || Less(a, b) || Less(b, a)
    ensures !(a == b && Less(a, b)) && !(a == b && Less(b, a)) && !(Less(a, b) && Less(b, a))
  {
    if a.Str? {
      StrLessIrreflexive(a.s);
      if a.s != b.s {
        StrLessTotal(a.s, b.s);
      }
      if StrLess(a.s, b.s) {
        StrLessAsymmetric(a.s, b.s);
      }
    }
  }
}
