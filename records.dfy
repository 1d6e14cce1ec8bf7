/** Metadata records as the filesystem service returns them: a mapping from
    wire field name to a scalar value, and the Python 2 ordering the numeric
    search operators use on those values. */
module Records {

  /** A field value of a status record: a number or a string. */
  datatype Value = Int(i: int) | Str(s: string)

  type Record = map<string, Value>

  /** Python truthiness of a value: zero and the empty string are false. */
  predicate Truthy(v: Value)
  {
    match v
    case Int(n) => n != 0
    case Str(s) => s != ""
  }

  /** Code-point lexicographic order on strings (Python's `<` on strings). */
  predicate LexLess(s: string, t: string)
    decreases |s|
  {
    if |s| == 0 then |t| > 0
    else if |t| == 0 then false
    else if s[0] != t[0] then s[0] < t[0]
    else LexLess(s[1..], t[1..])
  }

  /** Python 2's `<`: numbers compare numerically, strings lexicographically,
      and every number is smaller than every string. */
  predicate PyLess(a: Value, b: Value)
  {
    match (a, b)
    case (Int(x), Int(y)) => x < y
    case (Str(s), Str(t)) => LexLess(s, t)
    case (Int(_), Str(_)) => true
    case (Str(_), Int(_)) => false
  }

  lemma {:induction false} LexLessTrichotomy(s: string, t: string)
    ensures s == t || LexLess(s, t) || LexLess(t, s)
    ensures !(LexLess(s, t) && LexLess(t, s))
    ensures !LexLess(s, s)
    decreases |s|
  {
    if |s| > 0 && |t| > 0 && s[0] == t[0] {
      LexLessTrichotomy(s[1..], t[1..]);
      if s[1..] == t[1..] {
        assert s == [s[0]] + s[1..] && t == [t[0]] + t[1..];
      }
    }
    if |s| > 0 {
      LexLessIrreflexive(s);
    }
  }

  lemma {:induction false} LexLessIrreflexive(s: string)
    ensures !LexLess(s, s)
    decreases |s|
  {
    if |s| > 0 {
      LexLessIrreflexive(s[1..]);
    }
  }

  lemma {:induction false} LexLessTransitive(s: string, t: string, u: string)
    requires LexLess(s, t) && LexLess(t, u)
    ensures LexLess(s, u)
    decreases |s|
  {
    if |s| > 0 && |t| > 0 && |u| > 0 && s[0] == t[0] && t[0] == u[0] {
      LexLessTransitive(s[1..], t[1..], u[1..]);
    }
  }

  /** The Python 2 order on values is a strict total order, which is what lets
      `>=` and `<=` be read as the negations of `<` and `>`. */
  lemma PyLessStrictTotalOrder(a: Value, b: Value, c: Value)
    ensures !PyLess(a, a)
    ensures a == b || PyLess(a, b) || PyLess(b, a)
    ensures !(PyLess(a, b) && PyLess(b, a))
    ensures PyLess(a, b) && PyLess(b, c) ==> PyLess(a, c)
  {
    match (a, b) {
      case (Str(s), Str(t)) => LexLessTrichotomy(s, t);
      case _ =>
    }
    match a {
      case Str(s) => LexLessIrreflexive(s);
      case _ =>
    }
    if PyLess(a, b) && PyLess(b, c) && a.Str? && b.Str? && c.Str? {
      LexLessTransitive(a.s, b.s, c.s);
    }
  }
}
