/** The typed filter language of core/search.py: registries of keys and
    operators, single search expressions, and postfix token lists evaluated
    with an explicit stack. */
module Search {
  import opened Common
  import opened Records
  import opened Util

  /** The predicate functions an operator registry can map a name to. */
  datatype Operator = Gt | Lt | Ge | Le | Eq | Regex | Glob

  /** Semantic key name -> wire field name of a status record. */
  type KeyRegistry = map<string, string>

  /** Operator name -> predicate. */
  type OperatorRegistry = map<string, Operator>

  /** The base classes `SearchKeys` and `SearchOperators` hold empty tables. */
  const BaseKeys: KeyRegistry := map[]
  const BaseOperators: OperatorRegistry := map[]

  /** `SearchLogicalOperators.LOGIC_DICT`: logical operator -> precedence. */
  const LogicalOperators: map<string, int> := map["and" := 1, "or" := 2]

  const InvalidKeyMsg: string := "Invalid key provided"
  const InvalidOperationMsg: string := "Invalid operation"
  const IncorrectExpressionMsg: string := "Search Expression incorrect"

  /** `get_value` of the three registry classes: a plain table lookup. */
  function GetValue<T>(table: map<string, T>, key: string): (r: Result<T>)
    ensures r.Ok? <==> key in table
    ensures r.Ok? ==> r.value == table[key]
    ensures r.Err? ==> r.error == KeyError(key)
  {
    if key in table then Ok(table[key]) else Err(KeyError(key))
  }

  /** A built search expression keeps the wire field name, the predicate and
      the operand, never the names it was built from. */
  datatype SearchExpression = SearchExpression(field: string, oper: Operator, val: Value)
  {
    /** `SearchExpression.match`: the predicate applied to the record's field
        and the operand, read as a boolean. A missing field is a KeyError. */
    function Match(rec: Record, lib: Library): (r: Result<bool>)
      ensures field !in rec ==> r == Err(KeyError(field))
      ensures r.Ok? ==> field in rec
      ensures r.Err? ==> r.error == KeyError(field) || r.error == TypeError
      ensures oper.Gt? && field in rec ==> r == Ok(PyLess(val, rec[field]))
      ensures oper.Lt? && field in rec ==> r == Ok(PyLess(rec[field], val))
      ensures oper.Eq? && field in rec ==> r == Ok(rec[field] == val)
      ensures oper.Regex? && field in rec ==> r == RegexSearch(rec[field], val, lib)
      ensures oper.Glob? && field in rec ==> r == GlobSearch(rec[field], val, lib)
    {
      if field !in rec then Err(KeyError(field))
      else
        var x := rec[field];
        match oper
        case Gt => Ok(PyLess(val, x))
        case Lt => Ok(PyLess(x, val))
        case Ge => Ok(!PyLess(x, val))
        case Le => Ok(!PyLess(val, x))
        case Eq => Ok(x == val)
        case Regex => RegexSearch(x, val, lib)
        case Glob => GlobSearch(x, val, lib)
    }
  }

  /** `SearchExpression.__init__`: the key must be registered, then the
      operator; the expression stores what the registries map them to. */
  function Build(key: string, oper: string, val: Value,
                 keys: KeyRegistry, opers: OperatorRegistry): (r: Result<SearchExpression>)
    ensures key !in keys ==> r == Err(ValueError(InvalidKeyMsg))
    ensures key in keys && oper !in opers ==> r == Err(ValueError(InvalidOperationMsg))
    ensures r.Ok? <==> key in keys && oper in opers
    ensures r.Ok? ==> r.value.field == keys[key] && r.value.oper == opers[oper] && r.value.val == val
  {
    if key !in keys then Err(ValueError(InvalidKeyMsg))
    else if oper !in opers then Err(ValueError(InvalidOperationMsg))
    else Ok(SearchExpression(keys[key], opers[oper], val))
  }

  /** With the base classes' empty registries no expression can be built. */
  lemma BaseRegistriesRejectAll(key: string, oper: string, val: Value)
    ensures Build(key, oper, val, BaseKeys, BaseOperators) == Err(ValueError(InvalidKeyMsg))
  {
  }

  /** An expression looks at one field only: two records that agree on it
      get the same answer. */
  lemma MatchReadsOnlyItsField(e: SearchExpression, r1: Record, r2: Record, lib: Library)
    requires e.field in r1 <==> e.field in r2
    requires e.field in r1 ==> r1[e.field] == r2[e.field]
    ensures e.Match(r1, lib) == e.Match(r2, lib)
  {
  }

  /** The five comparison operators agree with each other on every field
      value: `>=` is `>` or `=`, `<=` is `<` or `=`, and exactly one of `<`,
      `=`, `>` holds. */
  lemma ComparisonsConsistent(field: string, val: Value, rec: Record, lib: Library)
    requires field in rec
    ensures SearchExpression(field, Ge, val).Match(rec, lib)
         == Ok(SearchExpression(field, Gt, val).Match(rec, lib).value
               || SearchExpression(field, Eq, val).Match(rec, lib).value)
    ensures SearchExpression(field, Le, val).Match(rec, lib)
         == Ok(SearchExpression(field, Lt, val).Match(rec, lib).value
               || SearchExpression(field, Eq, val).Match(rec, lib).value)
    ensures var lt := SearchExpression(field, Lt, val).Match(rec, lib).value;
            var eq := SearchExpression(field, Eq, val).Match(rec, lib).value;
            var gt := SearchExpression(field, Gt, val).Match(rec, lib).value;
            (lt || eq || gt) && !(lt && eq) && !(lt && gt) && !(eq && gt)
  {
    PyLessStrictTotalOrder(rec[field], val, val);
    PyLessStrictTotalOrder(val, rec[field], val);
  }

  /** A token of a postfix list: an expression, or a word that `add` only
      accepts when it is a logical operator. */
  datatype Token = Expr(e: SearchExpression) | Word(w: string)

  predicate IsLogical(w: string)
  {
    w in LogicalOperators
  }

  predicate ValidToken(t: Token)
  {
    t.Expr? || IsLogical(t.w)
  }

  /** One step of the postfix evaluation; the top of the stack is its last
      element. A logical operator pops the top (first operand) and the value
      below it (second operand) and pushes their combination. */
  function Step(t: Token, rec: Record, lib: Library, stack: seq<bool>): (r: Result<seq<bool>>)
    ensures r.Ok? && t.Expr? ==> |r.value| == |stack| + 1 && r.value[..|stack|] == stack
    ensures r.Ok? && t.Word? ==>
      |stack| >= 2 && |r.value| == |stack| - 1 && r.value[..|stack| - 2] == stack[..|stack| - 2]
    ensures r == Err(AttributeError) <==> t.Word? && !IsLogical(t.w)
    ensures t.Word? && IsLogical(t.w) && |stack| < 2 ==> r == Err(ValueError(IncorrectExpressionMsg))
  {
    match t
    case Word(w) =>
      if !IsLogical(w) then Err(AttributeError)
      else if |stack| < 2 then Err(ValueError(IncorrectExpressionMsg))
      else
        var first := stack[|stack| - 1];
        var second := stack[|stack| - 2];
        Ok(stack[..|stack| - 2] + [if w == "and" then first && second else first || second])
    case Expr(e) =>
      match e.Match(rec, lib)
      case Err(err) => Err(err)
      case Ok(b) => Ok(stack + [b])
  }

  /** What a token list adds to the stack: one per expression, minus one
      per operator. */
  function Balance(tokens: seq<Token>): int
    decreases |tokens|
  {
    if tokens == [] then 0 else (if tokens[0].Expr? then 1 else -1) + Balance(tokens[1..])
  }

  /** The stack left after running `tokens` from `stack`, or the first error.
      Only a word that is not an operator raises AttributeError. */
  function Run(tokens: seq<Token>, rec: Record, lib: Library, stack: seq<bool>): (r: Result<seq<bool>>)
    ensures tokens == [] ==> r == Ok(stack)
    ensures r.Ok? ==> |r.value| == |stack| + Balance(tokens)
    ensures (forall i :: 0 <= i < |tokens| ==> ValidToken(tokens[i])) ==> r != Err(AttributeError)
    decreases |tokens|
  {
    if tokens == [] then Ok(stack)
    else
      match Step(tokens[0], rec, lib, stack)
      case Err(err) => Err(err)
      case Ok(next) => Run(tokens[1..], rec, lib, next)
  }

  /** The value of a postfix list: the BOTTOM of the final stack. The source's
      final check never fires on a stack of booleans, so leftover values are
      not an error; an empty final stack fails when it is indexed. */
  function Evaluate(tokens: seq<Token>, rec: Record, lib: Library): (r: Result<bool>)
    ensures tokens == [] ==> r == Err(IndexError)
    ensures r.Ok? ==> Balance(tokens) >= 1
    ensures (forall i :: 0 <= i < |tokens| ==> ValidToken(tokens[i])) ==> r != Err(AttributeError)
  {
    match Run(tokens, rec, lib, [])
    case Err(err) => Err(err)
    case Ok(stack) => if |stack| == 0 then Err(IndexError) else Ok(stack[0])
  }

  /** `SearchExpressionList`: an append-only list of tokens in postfix order. */
  class SearchExpressionList {
    var tokens: seq<Token>

    ghost predicate Valid()
      reads this
    {
      forall i :: 0 <= i < |tokens| ==> ValidToken(tokens[i])
    }

    constructor (initial: Option<SearchExpression>)
      ensures Valid()
      ensures tokens == if initial.Some? then [Expr(initial.value)] else []
    {
      tokens := [];
      if initial.Some? {
        tokens := [Expr(initial.value)];
      }
    }

    /** `add`: appends a valid token; anything else raises ValueError carrying
        the token and leaves the list as it was. */
    method Add(t: Token) returns (r: Result<()>)
      requires Valid()
      modifies this
      ensures Valid()
      ensures r.Ok? <==> ValidToken(t)
      ensures r.Err? ==> r.error == ValueError(t.w)
      ensures tokens == if ValidToken(t) then old(tokens) + [t] else old(tokens)
    {
      if !t.Expr? && !IsLogical(t.w) {
        return Err(ValueError(t.w));
      }
      tokens := tokens + [t];
      return Ok(());
    }

    /** `match`: the stack reduction of the token list against one record. */
    method Match(rec: Record, lib: Library) returns (r: Result<bool>)
      ensures r == Evaluate(tokens, rec, lib)
      ensures Valid() ==> r != Err(AttributeError)
    {
      assert Valid() ==> Evaluate(tokens, rec, lib) != Err(AttributeError);
      var stack: seq<bool> := [];
      var i := 0;
      while i < |tokens|
        invariant 0 <= i <= |tokens|
        invariant Run(tokens, rec, lib, []) == Run(tokens[i..], rec, lib, stack)
      {
        var t := tokens[i];
        assert tokens[i..][0] == t && tokens[i..][1..] == tokens[i + 1..];
        ghost var before := stack;
        if t.Word? && IsLogical(t.w) {
          if |stack| < 2 {
            return Err(ValueError(IncorrectExpressionMsg));
          }
          var first := stack[|stack| - 1];
          stack := stack[..|stack| - 1];
          var second := stack[|stack| - 1];
          stack := stack[..|stack| - 1];
          if t.w == "and" {
            stack := stack + [first && second];
          } else {
            stack := stack + [first || second];
          }
          assert before[..|before| - 2] == before[..|before| - 1][..|before| - 2];
          assert Step(t, rec, lib, before) == Ok(stack);
        } else if t.Word? {
          // a word that is not an operator has no `match` to call
          return Err(AttributeError);
        } else {
          var m := t.e.Match(rec, lib);
          if m.Err? {
            return Err(m.error);
          }
          stack := stack + [m.value];
          assert Step(t, rec, lib, before) == Ok(stack);
        }
        i := i + 1;
      }
      if |stack| == 0 {
        return Err(IndexError);
      }
      return Ok(stack[0]);
    }
  }

  /** Running a concatenation runs the first part, then the second from the
      stack the first part left. */
  lemma {:induction false} RunAppend(a: seq<Token>, b: seq<Token>, rec: Record, lib: Library, stack: seq<bool>)
    ensures Run(a + b, rec, lib, stack) ==
      match Run(a, rec, lib, stack)
      case Err(err) => Err(err)
      case Ok(mid) => Run(b, rec, lib, mid)
    decreases |a|
  {
    if a == [] {
      assert a + b == b;
    } else {
      assert (a + b)[0] == a[0] && (a + b)[1..] == a[1..] + b;
      match Step(a[0], rec, lib, stack) {
        case Err(err) =>
        case Ok(next) => RunAppend(a[1..], b, rec, lib, next);
      }
    }
  }

  /** A boolean condition over expressions, the structure a well-formed
      postfix list encodes. Both operands are always evaluated. */
  datatype Cond = Leaf(e: SearchExpression) | Both(left: Cond, right: Cond) | Either(left: Cond, right: Cond)
  {
    function Size(): nat
    {
      match this
      case Leaf(_) => 1
      case Both(l, r) => l.Size() + r.Size() + 1
      case Either(l, r) => l.Size() + r.Size() + 1
    }

    function Postfix(): seq<Token>
    {
      match this
      case Leaf(e) => [Expr(e)]
      case Both(l, r) => l.Postfix() + r.Postfix() + [Word("and")]
      case Either(l, r) => l.Postfix() + r.Postfix() + [Word("or")]
    }

    /** The meaning of the condition: the left operand is evaluated first,
        then the right one, and the first error wins. */
    function Holds(rec: Record, lib: Library): Result<bool>
    {
      match this
      case Leaf(e) => e.Match(rec, lib)
      case Both(l, r) =>
        (match l.Holds(rec, lib)
         case Err(err) => Err(err)
         case Ok(x) =>
           match r.Holds(rec, lib)
           case Err(err) => Err(err)
           case Ok(y) => Ok(x && y))
      case Either(l, r) =>
        (match l.Holds(rec, lib)
         case Err(err) => Err(err)
         case Ok(x) =>
           match r.Holds(rec, lib)
           case Err(err) => Err(err)
           case Ok(y) => Ok(x || y))
    }
  }

  /** Running the postfix form of a condition pushes exactly its value. */
  lemma {:induction false} RunPostfix(c: Cond, rec: Record, lib: Library, stack: seq<bool>)
    ensures Run(c.Postfix(), rec, lib, stack) ==
      match c.Holds(rec, lib)
      case Err(err) => Err(err)
      case Ok(b) => Ok(stack + [b])
    decreases c.Size(), 1
  {
    match c {
      case Leaf(e) =>
        assert [Expr(e)][1..] == [];
      case Both(l, r) =>
        RunPostfixPair(l, r, "and", rec, lib, stack);
      case Either(l, r) =>
        RunPostfixPair(l, r, "or", rec, lib, stack);
    }
  }

  lemma {:induction false} RunPostfixPair(l: Cond, r: Cond, op: string, rec: Record, lib: Library, stack: seq<bool>)
    requires op == "and" || op == "or"
    ensures Run(l.Postfix() + r.Postfix() + [Word(op)], rec, lib, stack) ==
      match l.Holds(rec, lib)
      case Err(err) => Err(err)
      case Ok(x) =>
        match r.Holds(rec, lib)
        case Err(err) => Err(err)
        case Ok(y) => Ok(stack + [if op == "and" then x && y else x || y])
    decreases l.Size() + r.Size() + 1, 0
  {
    var both := l.Postfix() + r.Postfix();
    RunAppend(both, [Word(op)], rec, lib, stack);
    RunAppend(l.Postfix(), r.Postfix(), rec, lib, stack);
    RunPostfix(l, rec, lib, stack);
    if l.Holds(rec, lib).Ok? {
      var x := l.Holds(rec, lib).value;
      RunPostfix(r, rec, lib, stack + [x]);
      if r.Holds(rec, lib).Ok? {
        var y := r.Holds(rec, lib).value;
        RunOperator(op, stack, x, y, rec, lib);
      }
    }
  }

  /** A logical operator applied to a stack ending in x, y. */
  lemma RunOperator(op: string, stack: seq<bool>, x: bool, y: bool, rec: Record, lib: Library)
    requires op == "and" || op == "or"
    ensures Run([Word(op)], rec, lib, stack + [x] + [y]) ==
      Ok(stack + [if op == "and" then x && y else x || y])
  {
    var s := stack + [x] + [y];
    assert s[..|s| - 2] == stack && s[|s| - 1] == y && s[|s| - 2] == x;
    assert [Word(op)][1..] == [];
  }

  /** Postfix evaluation is correct: a list in postfix form evaluates to the
      value of the condition it encodes. */
  lemma PostfixCorrect(c: Cond, rec: Record, lib: Library)
    ensures Evaluate(c.Postfix(), rec, lib) == c.Holds(rec, lib)
  {
    RunPostfix(c, rec, lib, []);
  }

  /** `[E1, E2, "and"]` is the conjunction and `[E1, E2, "or"]` the
      disjunction of the two expressions. */
  lemma AndOrOfTwo(e1: SearchExpression, e2: SearchExpression, rec: Record, lib: Library)
    requires e1.Match(rec, lib).Ok? && e2.Match(rec, lib).Ok?
    ensures Evaluate([Expr(e1), Expr(e2), Word("and")], rec, lib)
         == Ok(e1.Match(rec, lib).value && e2.Match(rec, lib).value)
    ensures Evaluate([Expr(e1), Expr(e2), Word("or")], rec, lib)
         == Ok(e1.Match(rec, lib).value || e2.Match(rec, lib).value)
  {
    PostfixCorrect(Both(Leaf(e1), Leaf(e2)), rec, lib);
    assert Both(Leaf(e1), Leaf(e2)).Postfix() == [Expr(e1), Expr(e2), Word("and")];
    PostfixCorrect(Either(Leaf(e1), Leaf(e2)), rec, lib);
    assert Either(Leaf(e1), Leaf(e2)).Postfix() == [Expr(e1), Expr(e2), Word("or")];
  }

  /** A list holding one expression evaluates to that expression. */
  lemma SingleExpression(e: SearchExpression, rec: Record, lib: Library)
    ensures Evaluate([Expr(e)], rec, lib) == e.Match(rec, lib)
  {
    PostfixCorrect(Leaf(e), rec, lib);
  }

  /** A logical operator with a single value below it raises ValueError (once
      the expression before it has been evaluated). */
  lemma UnderflowFails(e: SearchExpression, w: string, rest: seq<Token>, rec: Record, lib: Library)
    requires IsLogical(w)
    ensures Evaluate([Expr(e), Word(w)] + rest, rec, lib) ==
      if e.Match(rec, lib).Err? then Err(e.Match(rec, lib).error)
      else Err(ValueError(IncorrectExpressionMsg))
  {
    var ts := [Expr(e), Word(w)] + rest;
    assert ts[0] == Expr(e) && ts[1..][0] == Word(w) && ts[1..][1..] == rest;
    match e.Match(rec, lib) {
      case Err(err) =>
      case Ok(b) =>
        assert [] + [b] == [b];
        assert Step(Expr(e), rec, lib, []) == Ok([b]);
        assert Run(ts, rec, lib, []) == Run(ts[1..], rec, lib, [b]);
        assert Step(Word(w), rec, lib, [b]) == Err(ValueError(IncorrectExpressionMsg));
        assert Run(ts[1..], rec, lib, [b]) == Err(ValueError(IncorrectExpressionMsg));
    }
  }

  /** A list that starts with a logical operator raises ValueError. */
  lemma LeadingOperatorFails(w: string, rest: seq<Token>, rec: Record, lib: Library)
    requires IsLogical(w)
    ensures Evaluate([Word(w)] + rest, rec, lib) == Err(ValueError(IncorrectExpressionMsg))
  {
    assert ([Word(w)] + rest)[0] == Word(w);
  }

  /** Wherever it stands, a logical operator that meets fewer than two values
      on the stack raises ValueError, whatever follows it. */
  lemma UnderflowAnywhere(prefix: seq<Token>, w: string, rest: seq<Token>, rec: Record, lib: Library, s: seq<bool>)
    requires IsLogical(w) && Run(prefix, rec, lib, []) == Ok(s) && |s| < 2
    ensures Evaluate(prefix + [Word(w)] + rest, rec, lib) == Err(ValueError(IncorrectExpressionMsg))
  {
    var tail := [Word(w)] + rest;
    assert prefix + [Word(w)] + rest == prefix + tail;
    RunAppend(prefix, tail, rec, lib, []);
    assert tail[0] == Word(w);
  }

  /** An empty list fails by indexing its empty stack. */
  lemma EmptyListFails(rec: Record, lib: Library)
    ensures Evaluate([], rec, lib) == Err(IndexError)
  {
  }

  /** The leftover-stack quirk: two conditions written one after the other
      with no operator joining them raise nothing, and the value of the FIRST
      one is returned. */
  lemma LeftoverReturnsBottom(c1: Cond, c2: Cond, rec: Record, lib: Library)
    requires c1.Holds(rec, lib).Ok? && c2.Holds(rec, lib).Ok?
    ensures Evaluate(c1.Postfix() + c2.Postfix(), rec, lib) == c1.Holds(rec, lib)
  {
    RunAppend(c1.Postfix(), c2.Postfix(), rec, lib, []);
    RunPostfix(c1, rec, lib, []);
    var x := c1.Holds(rec, lib).value;
    assert [] + [x] == [x];
    RunPostfix(c2, rec, lib, [x]);
    assert ([x] + [c2.Holds(rec, lib).value])[0] == x;
  }
}
