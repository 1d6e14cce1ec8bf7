/** The dictionary helpers and the pattern-matching entry points of the client
    (core/util.py). The regular-expression and glob engines themselves are a
    foreign library and appear only as the two functions of `Library`. */
module Util {
  import opened Common
  import opened Records

  /** The external matching engines, each taking (pattern, text):
      `regex` says whether `re.search` finds a match, `fnmatch` whether the
      glob pattern matches the whole text. */
  datatype Library = Library(regex: (string, string) -> bool,
                             fnmatch: (string, string) -> bool)

  const DefaultRegex: string := ".*"
  const DefaultGlob: string := "*"

  /** `merge_dict`: a dictionary built from the items of `d1` followed by the
      items of `d2`, so that on a shared key the second one wins. */
  function MergeDict<K, V>(d1: map<K, V>, d2: map<K, V>): (r: map<K, V>)
    ensures r.Keys == d1.Keys + d2.Keys
    ensures forall k :: k in d2 ==> r[k] == d2[k]
    ensures forall k :: k in d1 && k !in d2 ==> r[k] == d1[k]
  {
    d1 + d2
  }

  lemma MergeWithEmpty<K, V>(d: map<K, V>)
    ensures MergeDict(d, map[]) == d
    ensures MergeDict(map[], d) == d
  {
  }

  lemma MergeIdempotent<K, V>(d: map<K, V>)
    ensures MergeDict(d, d) == d
  {
  }

  lemma MergeAssociative<K, V>(d1: map<K, V>, d2: map<K, V>, d3: map<K, V>)
    ensures MergeDict(MergeDict(d1, d2), d3) == MergeDict(d1, MergeDict(d2, d3))
  {
  }

  /** A dictionary built from a sequence of pairs, a later pair replacing an
      earlier one with the same key (Python's `dict(pairs)`). Pairs whose
      value is absent are skipped. */
  function PresentPairs<K, V>(ps: seq<(K, Option<V>)>): (r: map<K, V>)
    decreases |ps|
  {
    if ps == [] then map[]
    else
      var last := ps[|ps| - 1];
      var prefix := PresentPairs(ps[..|ps| - 1]);
      if last.1.Some? then prefix[last.0 := last.1.value] else prefix
  }

  /** `convert_to_dict`: nothing for a missing or empty argument list,
      otherwise the dictionary of the pairs whose value is not None. */
  function ConvertToDict<K, V>(args: Option<seq<(K, Option<V>)>>): (r: Option<map<K, V>>)
    ensures (args.None? || args.value == []) <==> r.None?
  {
    if args.None? || args.value == [] then None
    else Some(PresentPairs(args.value))
  }

  /** Position `i` holds a present value and no later pair has the same key. */
  ghost predicate LastPresentAt<K, V>(ps: seq<(K, Option<V>)>, i: int)
  {
    && 0 <= i < |ps|
    && ps[i].1.Some?
    && forall j :: i < j < |ps| && ps[j].0 == ps[i].0 ==> ps[j].1.None?
  }

  /** The keys of the converted dictionary are exactly the keys that occur
      with a present value. */
  lemma {:induction false} PresentPairsKeys<K, V>(ps: seq<(K, Option<V>)>)
    ensures forall k :: k in PresentPairs(ps) <==>
      exists i :: 0 <= i < |ps| && ps[i].0 == k && ps[i].1.Some?
    decreases |ps|
  {
    if ps != [] {
      var n := |ps| - 1;
      var init := ps[..n];
      PresentPairsKeys(init);
      forall k
        ensures k in PresentPairs(ps) <==> exists i :: 0 <= i < |ps| && ps[i].0 == k && ps[i].1.Some?
      {
        if k in PresentPairs(init) {
          var i :| 0 <= i < |init| && init[i].0 == k && init[i].1.Some?;
          assert ps[i] == init[i];
        }
        if exists i :: 0 <= i < |ps| && ps[i].0 == k && ps[i].1.Some? {
          var i :| 0 <= i < |ps| && ps[i].0 == k && ps[i].1.Some?;
          if i < n {
            assert init[i] == ps[i];
          }
        }
      }
    }
  }

  /** Each key of the converted dictionary maps to its LAST present value. */
  lemma {:induction false} PresentPairsLast<K, V>(ps: seq<(K, Option<V>)>)
    ensures forall i :: LastPresentAt(ps, i) ==>
      ps[i].0 in PresentPairs(ps) && PresentPairs(ps)[ps[i].0] == ps[i].1.value
    decreases |ps|
  {
    if ps != [] {
      var n := |ps| - 1;
      var init := ps[..n];
      PresentPairsLast(init);
      forall i | LastPresentAt(ps, i)
        ensures ps[i].0 in PresentPairs(ps) && PresentPairs(ps)[ps[i].0] == ps[i].1.value
      {
        if i < n {
          assert init[i] == ps[i];
          assert LastPresentAt(init, i) by {
            forall j | i < j < |init| && init[j].0 == init[i].0 ensures init[j].1.None? {
              assert init[j] == ps[j];
            }
          }
        }
      }
    }
  }

  /** The pattern actually used by `regex_search`: a missing or empty pattern
      becomes ".*"; a pattern that is not a string is refused. */
  function RegexPattern(pattern: Value): Result<string>
  {
    if !Truthy(pattern) then Ok(DefaultRegex)
    else if pattern.Str? then Ok(pattern.s)
    else Err(TypeError)
  }

  /** `regex_search(text, pattern)` read as a boolean. */
  function RegexSearch(text: Value, pattern: Value, lib: Library): (r: Result<bool>)
    ensures r.Ok? <==> text.Str? && (pattern.Str? || pattern == Int(0))
    ensures r.Err? ==> r.error == TypeError
    ensures r.Ok? && !Truthy(pattern) ==> r.value == lib.regex(DefaultRegex, text.s)
    ensures r.Ok? && Truthy(pattern) ==> r.value == lib.regex(pattern.s, text.s)
  {
    match RegexPattern(pattern)
    case Err(e) => Err(e)
    case Ok(p) => if text.Str? then Ok(lib.regex(p, text.s)) else Err(TypeError)
  }

  /** The pattern actually used by `glob_search`: a missing or empty pattern
      becomes "*". */
  function GlobPattern(pattern: Value): Result<string>
  {
    if !Truthy(pattern) then Ok(DefaultGlob)
    else if pattern.Str? then Ok(pattern.s)
    else Err(TypeError)
  }

  /** `glob_search(text, pattern)`. */
  function GlobSearch(text: Value, pattern: Value, lib: Library): (r: Result<bool>)
    ensures r.Ok? <==> text.Str? && (pattern.Str? || pattern == Int(0))
    ensures r.Err? ==> r.error == TypeError
    ensures r.Ok? && !Truthy(pattern) ==> r.value == lib.fnmatch(DefaultGlob, text.s)
    ensures r.Ok? && Truthy(pattern) ==> r.value == lib.fnmatch(pattern.s, text.s)
  {
    match GlobPattern(pattern)
    case Err(e) => Err(e)
    case Ok(p) => if text.Str? then Ok(lib.fnmatch(p, text.s)) else Err(TypeError)
  }

  /** An empty pattern behaves exactly as the explicit match-everything
      pattern of each engine. */
  lemma EmptyPatternIsDefault(text: Value, lib: Library)
    ensures RegexSearch(text, Str(""), lib) == RegexSearch(text, Str(DefaultRegex), lib)
    ensures GlobSearch(text, Str(""), lib) == GlobSearch(text, Str(DefaultGlob), lib)
  {
  }

  /** `ReadOnlyClass.__setattr__`: every assignment to an attribute of a
      registry class fails, whatever the name and the value. */
  function SetClassAttribute<T>(registry: T, name: string, value: Value): (r: Result<T>)
    ensures r.Err? && r.error == AttributeError
  {
    Err(AttributeError)
  }
}
