/** The WebHDFS instances of the search registries (core/webhdfs.py, the
    `Whdfs*` classes): semantic keys mapped to FileStatus / ContentSummary
    field names, and operator names mapped to predicates. */
module WhdfsSearch {
  import opened Common
  import opened Records
  import opened Search

  const PathKey: string := "name"
  const MtimeKey: string := "mtime"
  const OwnerKey: string := "owner"
  const ReplKey: string := "replication"
  const TypeKey: string := "type"
  const SizeKey: string := "length"
  const DirCountKey: string := "num_dir"
  const FileCountKey: string := "num_file"
  const CountQuotaKey: string := "count_quota"
  const RawSizeKey: string := "raw_length"
  const SpaceQuotaKey: string := "space_quota"

  /** `WhdfsSearchKeys.SEARCH_KEY_DICT`. */
  const Keys: KeyRegistry := map[
    DirCountKey := "directoryCount",
    FileCountKey := "fileCount",
    CountQuotaKey := "quota",
    SpaceQuotaKey := "spaceQuota",
    RawSizeKey := "spaceConsumed",
    PathKey := "pathSuffix",
    MtimeKey := "modificationTime",
    OwnerKey := "owner",
    ReplKey := "replication",
    TypeKey := "type",
    SizeKey := "length"]

  /** `WhdfsSearchOperators.OPER_DICT`. */
  const Operators: OperatorRegistry := map[
    ">" := Gt, "<" := Lt, ">=" := Ge, "<=" := Le, "=" := Eq,
    "regex" := Regex, "glob" := Glob]

  /** The reverse table: wire field name -> semantic key. */
  const KeyOfField: map<string, string> := map[
    "directoryCount" := DirCountKey,
    "fileCount" := FileCountKey,
    "quota" := CountQuotaKey,
    "spaceQuota" := SpaceQuotaKey,
    "spaceConsumed" := RawSizeKey,
    "pathSuffix" := PathKey,
    "modificationTime" := MtimeKey,
    "owner" := OwnerKey,
    "replication" := ReplKey,
    "type" := TypeKey,
    "length" := SizeKey]

  /** The key registry covers the eleven semantic keys and the wire field
      determines the key it came from. */
  lemma KeysRoundTrip()
    ensures Keys.Keys == {PathKey, MtimeKey, OwnerKey, ReplKey, TypeKey, SizeKey,
                          DirCountKey, FileCountKey, CountQuotaKey, RawSizeKey, SpaceQuotaKey}
    ensures forall k :: k in Keys ==> Keys[k] in KeyOfField && KeyOfField[Keys[k]] == k
  {
  }

  /** No two semantic keys share a wire field, so a filter on one key never
      reads another's field. */
  lemma KeysAreInjective()
    ensures forall k1, k2 :: k1 in Keys && k2 in Keys && Keys[k1] == Keys[k2] ==> k1 == k2
  {
    KeysRoundTrip();
    forall k1, k2 | k1 in Keys && k2 in Keys && Keys[k1] == Keys[k2]
      ensures k1 == k2
    {
      assert k1 == KeyOfField[Keys[k1]] == KeyOfField[Keys[k2]] == k2;
    }
  }

  /** The operator registry holds exactly the seven operators. */
  lemma OperatorNames()
    ensures Operators.Keys == {">", "<", ">=", "<=", "=", "regex", "glob"}
  {
  }

  /** `WhdfsSearchExpression.__init__`: an expression over the WebHDFS
      registries. */
  function Expression(key: string, oper: string, val: Value): (r: Result<SearchExpression>)
    ensures r.Ok? <==> key in Keys && oper in Operators
    ensures r.Ok? ==> r.value == SearchExpression(Keys[key], Operators[oper], val)
  {
    Build(key, oper, val, Keys, Operators)
  }

  /** The name pattern the listing and scanning calls build: it reads the
      `pathSuffix` field, and fails only for an unknown pattern type. */
  lemma NamePattern(patternType: string, pattern: string)
    ensures Expression(PathKey, patternType, Str(pattern)).Ok? <==> patternType in Operators
    ensures patternType == "glob" ==>
      Expression(PathKey, patternType, Str(pattern)) == Ok(SearchExpression("pathSuffix", Glob, Str(pattern)))
    ensures patternType == "regex" ==>
      Expression(PathKey, patternType, Str(pattern)) == Ok(SearchExpression("pathSuffix", Regex, Str(pattern)))
    ensures patternType !in Operators ==>
      Expression(PathKey, patternType, Str(pattern)) == Err(ValueError(InvalidOperationMsg))
  {
  }
}
