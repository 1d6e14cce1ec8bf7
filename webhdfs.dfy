/** The non-HTTP part of the WebHDFS client (core/webhdfs.py): URL building,
    the record projection, the zeroed statistics block, and the directory
    lister `_list_dir_info` with its two public callers. The remote service is
    replaced by three finite maps held in the client value. */
module Webhdfs {
  import opened Common
  import opened Records
  import opened Util
  import opened Search
  import WhdfsSearch

  /** A client and the remote filesystem it talks to. The three maps are the
      answers of LISTSTATUS, GETCONTENTSUMMARY and GETFILESTATUS, keyed by the
      absolute path that follows the service root in the request URL; a path
      that is absent is a request that fails. `urlJoin` is the foreign
      `urljoin`. */
  datatype Client = Client(
    baseUrl: string,
    urlExt: string,
    user: string,
    urlJoin: (string, string) -> string,
    listings: map<string, seq<Record>>,
    summaries: map<string, Record>,
    statuses: map<string, Record>,
    lib: Library)

  /** The path as it appears in a request URL: "/" is prepended when missing. */
  function AbsPath(path: string): (p: string)
    ensures |path| <= |p| <= |path| + 1 && |p| > 0
    ensures p[0] == '/'
    ensures p[|p| - |path|..] == path
    ensures |path| > 0 && path[0] == '/' ==> p == path
  {
    if |path| > 0 && path[0] == '/' then path else "/" + path
  }

  /** `_get_path_url`: the service root followed by the absolute path. */
  function PathUrl(c: Client, path: string): (u: string)
    ensures |u| > |c.urlJoin(c.baseUrl, c.urlExt)|
    ensures u[..|c.urlJoin(c.baseUrl, c.urlExt)|] == c.urlJoin(c.baseUrl, c.urlExt)
    ensures u[|c.urlJoin(c.baseUrl, c.urlExt)|] == '/'
    ensures |u| >= |path| && u[|u| - |path|..] == path
    ensures u[|c.urlJoin(c.baseUrl, c.urlExt)|..] == AbsPath(path)
  {
    c.urlJoin(c.baseUrl, c.urlExt) + AbsPath(path)
  }

  /** "x/y" and "/x/y" name the same resource. */
  lemma PathUrlNormalises(c: Client, path: string)
    ensures PathUrl(c, path) == PathUrl(c, AbsPath(path))
    ensures AbsPath(AbsPath(path)) == AbsPath(path)
  {
  }

  const UserParam: string := "?user.name="
  const OpParam: string := "&op="

  /** `_get_op_url`: the URL followed by the user name and the operation. */
  function OpUrl(url: string, user: string, op: string): (r: string)
    ensures url <= r
    ensures r[|url|..] == UserParam + user + OpParam + op
  {
    url + UserParam + user + OpParam + op
  }

  /** The first position of `ch` in `s`. */
  function FirstIndex(s: string, ch: char): (r: Option<nat>)
    ensures r.None? <==> ch !in s
    ensures r.Some? ==> r.value < |s| && s[r.value] == ch && ch !in s[..r.value]
  {
    if s == [] then None
    else if s[0] == ch then Some(0)
    else
      match FirstIndex(s[1..], ch)
      case None => None
      case Some(i) =>
        assert s[..i + 1] == [s[0]] + s[1..][..i];
        Some(i + 1)
  }

  /** Reads the user name and the operation back from an operation URL
      whose prefix `url` is known. */
  function ParseOpUrl(s: string, url: string): Option<(string, string)>
  {
    if !(url <= s) then None
    else
      var rest := s[|url|..];
      if !(UserParam <= rest) then None
      else
        var tail := rest[|UserParam|..];
        match FirstIndex(tail, '&')
        case None => None
        case Some(i) =>
          var more := tail[i..];
          if !(OpParam <= more) then None
          else Some((tail[..i], more[|OpParam|..]))
  }

  /** The operation URL carries the user name and the operation unchanged:
      both can be read back, whatever the operation holds, as long as the
      user name has no '&'. */
  lemma OpUrlRoundTrip(url: string, user: string, op: string)
    requires '&' !in user
    ensures ParseOpUrl(OpUrl(url, user, op), url) == Some((user, op))
  {
    var s := OpUrl(url, user, op);
    var rest := s[|url|..];
    assert rest == UserParam + (user + OpParam + op);
    var tail := rest[|UserParam|..];
    assert tail == user + (OpParam + op);
    var fi := FirstIndex(tail, '&');
    assert tail[|user|] == '&';
    assert fi.Some?;
    var i := fi.value;
    assert tail[..|user|] == user;
    assert i == |user|;
    assert tail[..i] == user;
    assert tail[i..] == OpParam + op;
  }

  /** What `_list_attribute` returns: the whole record or one field. */
  datatype Attr = Whole(record: Record) | Field(value: Value)

  /** Every attribute of a listing is a whole record. */
  predicate AllWhole(attrs: seq<Attr>)
  {
    forall a :: a in attrs ==> a.Whole?
  }

  /** Every attribute of a listing is a whole record with a type and a name. */
  predicate AllNamed(attrs: seq<Attr>)
  {
    forall a :: a in attrs ==> a.Whole? && "type" in a.record && "pathSuffix" in a.record
  }

  /** `lower()` on one character, for the ASCII letters. */
  function LowerChar(ch: char): char
  {
    if 'A' <= ch <= 'Z' then (ch as int + 32) as char else ch
  }

  /** A projection key that asks for the whole record: none, or "all" in any
      letter case. */
  predicate IsAll(key: Option<string>)
  {
    || key.None?
    || (&& |key.value| == 3
        && LowerChar(key.value[0]) == 'a'
        && LowerChar(key.value[1]) == 'l'
        && LowerChar(key.value[2]) == 'l')
  }

  /** The key "all" that the long listings pass asks for the whole record. */
  lemma AllKeyIsAll()
    ensures IsAll(Some("all"))
  {
    assert "all"[0] == 'a' && "all"[1] == 'l' && "all"[2] == 'l';
  }

  /** `_list_attribute`: the record itself for no key or "all", otherwise the
      field the key registry maps the key to. */
  function ListAttribute(x: Record, key: Option<string>): (r: Result<Attr>)
    ensures IsAll(key) ==> r == Ok(Whole(x))
    ensures !IsAll(key) && key.value !in WhdfsSearch.Keys ==> r == Err(KeyError(key.value))
    ensures !IsAll(key) && key.value in WhdfsSearch.Keys ==>
      var f := WhdfsSearch.Keys[key.value];
      r == if f in x then Ok(Field(x[f])) else Err(KeyError(f))
  {
    if IsAll(key) then Ok(Whole(x))
    else
      match GetValue(WhdfsSearch.Keys, key.value)
      case Err(e) => Err(e)
      case Ok(f) => if f in x then Ok(Field(x[f])) else Err(KeyError(f))
  }

  /** The five statistics fields an extended listing adds. */
  const ExtendedFields: set<string> :=
    {"directoryCount", "fileCount", "quota", "spaceQuota", "spaceConsumed"}

  /** `_build_extended_info`: a statistics block keyed by the registry's
      wire names. */
  function ExtendedInfo(dirCount: int, fileCount: int, countQuota: int,
                        spaceQuota: int, rawSize: int): (r: Record)
    ensures r.Keys == ExtendedFields
    ensures r["directoryCount"] == Int(dirCount) && r["fileCount"] == Int(fileCount)
    ensures r["quota"] == Int(countQuota) && r["spaceQuota"] == Int(spaceQuota)
    ensures r["spaceConsumed"] == Int(rawSize)
  {
    var keys := WhdfsSearch.Keys;
    map[keys[WhdfsSearch.DirCountKey] := Int(dirCount),
        keys[WhdfsSearch.FileCountKey] := Int(fileCount),
        keys[WhdfsSearch.CountQuotaKey] := Int(countQuota),
        keys[WhdfsSearch.SpaceQuotaKey] := Int(spaceQuota),
        keys[WhdfsSearch.RawSizeKey] := Int(rawSize)]
  }

  /** The block `_build_extended_info()` gives with its default arguments. */
  function ZeroedInfo(): Record
  {
    ExtendedInfo(0, 0, -1, -1, 0)
  }

  lemma ZeroedInfoDefaults()
    ensures ZeroedInfo() == map["directoryCount" := Int(0), "fileCount" := Int(0),
                                "quota" := Int(-1), "spaceQuota" := Int(-1),
                                "spaceConsumed" := Int(0)]
  {
  }

  /** `get_content_summary`: the summary of a path; a failed request is an
      IOError, or an empty summary when errors are ignored. */
  function ContentSummary(c: Client, path: string, ignoreError: bool): (r: Result<Record>)
    ensures r.Err? <==> path == "" || (AbsPath(path) !in c.summaries && !ignoreError)
    ensures path == "" ==> r == Err(MissingArgumentError("Path not provided"))
    ensures r.Ok? && AbsPath(path) in c.summaries ==> r.value == c.summaries[AbsPath(path)]
    ensures r.Ok? && AbsPath(path) !in c.summaries ==> r.value == map[]
  {
    if path == "" then Err(MissingArgumentError("Path not provided"))
    else if AbsPath(path) in c.summaries then Ok(c.summaries[AbsPath(path)])
    else if ignoreError then Ok(map[])
    else Err(IOError(path))
  }

  /** `get_path_status`: the status record of a path, the same way. */
  function PathStatus(c: Client, path: string, ignoreError: bool): (r: Result<Record>)
    ensures r.Err? <==> path == "" || (AbsPath(path) !in c.statuses && !ignoreError)
    ensures path == "" ==> r == Err(MissingArgumentError("Path not provided"))
    ensures r.Ok? && AbsPath(path) in c.statuses ==> r.value == c.statuses[AbsPath(path)]
    ensures r.Ok? && AbsPath(path) !in c.statuses ==> r.value == map[]
  {
    if path == "" then Err(MissingArgumentError("Path not provided"))
    else if AbsPath(path) in c.statuses then Ok(c.statuses[AbsPath(path)])
    else if ignoreError then Ok(map[])
    else Err(IOError(path))
  }

  /** The LISTSTATUS answer for a path, none when the request fails. */
  function Fetch(c: Client, path: string): (r: Option<seq<Record>>)
    ensures r.Some? <==> AbsPath(path) in c.listings
    ensures r.Some? ==> r.value == c.listings[AbsPath(path)]
  {
    if AbsPath(path) in c.listings then Some(c.listings[AbsPath(path)]) else None
  }

  /** The `tmap` of `_list_dir_info`: object type -> record type. */
  const TypeMap: map<string, string> := map["file" := "FILE", "dir" := "DIRECTORY", "symlink" := "SYMLINK"]

  /** The entries of `TypeMap`, one per object type. */
  lemma TypeMapEntries()
    ensures TypeMap.Keys == {"file", "dir", "symlink"}
    ensures TypeMap["file"] == "FILE" && TypeMap["dir"] == "DIRECTORY" && TypeMap["symlink"] == "SYMLINK"
  {
    assert |"file"| == 4 && |"dir"| == 3 && |"symlink"| == 7;
  }

  /** The arguments of one `_list_dir_info` call besides the path. */
  datatype Query = Query(otype: string, key: Option<string>, ignoreError: bool,
                         filter: Option<seq<Token>>, extended: bool)

  /** `not search_exp_list or search_exp_list.match(x)`. */
  function Pass(filter: Option<seq<Token>>, x: Record, lib: Library): Result<bool>
  {
    if filter.None? then Ok(true) else Evaluate(filter.value, x, lib)
  }

  predicate IsType(x: Record, t: string)
  {
    "type" in x && x["type"] == Str(t)
  }

  /** The child path the lister asks a summary for: the suffix alone under
      "/", otherwise the parent, "/" and the suffix. */
  function FullPath(path: string, x: Record): (r: Result<string>)
    ensures r.Ok? <==> "pathSuffix" in x && x["pathSuffix"].Str?
    ensures "pathSuffix" !in x ==> r == Err(KeyError("pathSuffix"))
    ensures r.Ok? ==> |r.value| >= |x["pathSuffix"].s| && r.value[|r.value| - |x["pathSuffix"].s|..] == x["pathSuffix"].s
    ensures r.Ok? && path == "/" ==> r.value == x["pathSuffix"].s
    ensures r.Ok? && path != "/" ==> path + "/" <= r.value
  {
    if "pathSuffix" !in x then Err(KeyError("pathSuffix"))
    else if !x["pathSuffix"].Str? then Err(TypeError)
    else if path == "/" then Ok(x["pathSuffix"].s)
    else Ok(path + "/" + x["pathSuffix"].s)
  }

  /** The statistics of a single file: one file, no directory, and the raw
      size `length * replication`. */
  function FileStats(x: Record): (r: Result<Record>)
    ensures r.Ok? <==> "length" in x && "replication" in x && x["length"].Int? && x["replication"].Int?
    ensures "length" !in x ==> r == Err(KeyError("length"))
    ensures "length" in x && "replication" !in x ==> r == Err(KeyError("replication"))
    ensures r.Ok? ==> r.value.Keys == ExtendedFields
    ensures r.Ok? ==> r.value["directoryCount"] == Int(0) && r.value["fileCount"] == Int(1)
    ensures r.Ok? ==> r.value["spaceConsumed"] == Int(x["length"].i * x["replication"].i)
  {
    if "length" !in x then Err(KeyError("length"))
    else if "replication" !in x then Err(KeyError("replication"))
    else if !x["length"].Int? || !x["replication"].Int? then Err(TypeError)
    else Ok(ExtendedInfo(0, 1, -1, -1, x["length"].i * x["replication"].i))
  }

  /** The extended form of a kept record in an extended listing of type
      `otype`. */
  function Extend(c: Client, path: string, otype: string, ignoreError: bool, x: Record): (r: Result<Record>)
    ensures r.Ok? ==> "pathSuffix" in x && x.Keys <= r.value.Keys
    ensures r.Ok? && otype == "all" ==> "type" in x
  {
    match FullPath(path, x)
    case Err(e) => Err(e)
    case Ok(full) =>
      if otype == "all" then
        if "type" !in x then Err(KeyError("type"))
        else if x["type"] == Str("DIRECTORY") then
          match ContentSummary(c, full, ignoreError)
          case Err(e) => Err(e)
          case Ok(s) => Ok(MergeDict(x, if s == map[] then ZeroedInfo() else s))
        else if x["type"] == Str("FILE") || x["type"] == Str("SYMLINK") then
          match FileStats(x)
          case Err(e) => Err(e)
          case Ok(info) => Ok(MergeDict(x, info))
        else Ok(MergeDict(x, ZeroedInfo()))
      else if otype == "dir" then
        match ContentSummary(c, full, ignoreError)
        case Err(e) => Err(e)
        case Ok(s) => Ok(MergeDict(x, s))
      else if otype == "file" then
        match FileStats(x)
        case Err(e) => Err(e)
        case Ok(info) => Ok(MergeDict(x, info))
      else Ok(MergeDict(x, ZeroedInfo()))
  }

  function Project(r: Result<Record>, key: Option<string>): (p: Result<Option<Attr>>)
    ensures p.Ok? ==> r.Ok? && p.value.Some?
    ensures p.Ok? && IsAll(key) ==> p.value.value == Whole(r.value)
  {
    match r
    case Err(e) => Err(e)
    case Ok(x) =>
      match ListAttribute(x, key)
      case Err(e) => Err(e)
      case Ok(a) => Ok(Some(a))
  }

  /** What one child record contributes to a listing: nothing when its type
      or the filter rejects it, else its (extended) projection. Under "all"
      the filter comes first; otherwise the type test does. */
  function Entry(c: Client, path: string, q: Query, x: Record): (r: Result<Option<Attr>>)
    ensures r.Ok? && r.value.Some? && IsAll(q.key) ==> r.value.value.Whole?
    ensures r.Ok? && r.value.Some? && q.extended && q.otype == "all" && IsAll(q.key) ==>
      "type" in r.value.value.record && "pathSuffix" in r.value.value.record
  {
    if q.otype == "all" then
      match Pass(q.filter, x, c.lib)
      case Err(e) => Err(e)
      case Ok(keep) =>
        if !keep then Ok(None)
        else Project(if q.extended then Extend(c, path, "all", q.ignoreError, x) else Ok(x), q.key)
    else if "type" !in x then Err(KeyError("type"))
    else if q.otype !in TypeMap then Err(KeyError(q.otype))
    else if x["type"] != Str(TypeMap[q.otype]) then Ok(None)
    else
      match Pass(q.filter, x, c.lib)
      case Err(e) => Err(e)
      case Ok(keep) =>
        if !keep then Ok(None)
        else Project(if q.extended then Extend(c, path, q.otype, q.ignoreError, x) else Ok(x), q.key)
  }

  /** The listing of the records `xs`, in order; the first failing record
      ends it. */
  function Collect(c: Client, path: string, q: Query, xs: seq<Record>): (r: Result<seq<Attr>>)
    ensures r.Ok? ==> |r.value| <= |xs|
    ensures r.Ok? && IsAll(q.key) ==> AllWhole(r.value)
    ensures r.Ok? && q.extended && q.otype == "all" && IsAll(q.key) ==> AllNamed(r.value)
    decreases |xs|
  {
    if xs == [] then Ok([])
    else
      match Collect(c, path, q, xs[..|xs| - 1])
      case Err(e) => Err(e)
      case Ok(out) =>
        match Entry(c, path, q, xs[|xs| - 1])
        case Err(e) => Err(e)
        case Ok(None) => Ok(out)
        case Ok(Some(a)) =>
          assert forall b :: b in out + [a] ==> b in out || b == a;
          Ok(out + [a])
  }

  /** The answer for a listable path: the listing of its children, or the
      error that stopped it. */
  function Found(l: Result<seq<Attr>>): (r: Result<Option<seq<Attr>>>)
    ensures r.Ok? <==> l.Ok?
    ensures r.Ok? ==> r.value == Some(l.value)
    ensures r.Err? ==> r.error == l.error
  {
    match l
    case Err(e) => Err(e)
    case Ok(out) => Ok(Some(out))
  }

  /** `_list_dir_info`: nothing (when errors are ignored) or an IOError for a
      path that cannot be listed, otherwise the listing of its children. */
  function DirInfo(c: Client, path: string, q: Query): (r: Result<Option<seq<Attr>>>)
    ensures Fetch(c, path).None? ==> r == if q.ignoreError then Ok(None) else Err(IOError(path))
    ensures r.Ok? && r.value.Some? ==> Fetch(c, path).Some? && |r.value.value| <= |Fetch(c, path).value|
    ensures r.Ok? && r.value.Some? && IsAll(q.key) ==> AllWhole(r.value.value)
    ensures r.Ok? && r.value.Some? && q.extended && q.otype == "all" && IsAll(q.key) ==> AllNamed(r.value.value)
  {
    match Fetch(c, path)
    case None => if q.ignoreError then Ok(None) else Err(IOError(path))
    case Some(xs) => Found(Collect(c, path, q, xs))
  }

  function TokensOf(l: SearchExpressionList?): Option<seq<Token>>
    reads l
  {
    if l == null then None else Some(l.tokens)
  }

  /** An error in the listing of a prefix is the error of the whole listing. */
  lemma {:induction false} CollectPrefixError(c: Client, path: string, q: Query, xs: seq<Record>, i: nat)
    requires i <= |xs|
    requires Collect(c, path, q, xs[..i]).Err?
    ensures Collect(c, path, q, xs) == Collect(c, path, q, xs[..i])
    decreases |xs| - i
  {
    if i < |xs| {
      var ys := xs[..i + 1];
      assert ys[..|ys| - 1] == xs[..i];
      CollectPrefixError(c, path, q, xs, i + 1);
    } else {
      assert xs[..i] == xs;
    }
  }

  /** The listing of one more record extends the listing of the records
      before it by that record's entry. */
  lemma CollectStep(c: Client, path: string, q: Query, xs: seq<Record>, i: nat)
    requires i < |xs| && Collect(c, path, q, xs[..i]).Ok?
    ensures Collect(c, path, q, xs[..i + 1]) ==
      match Entry(c, path, q, xs[i])
      case Err(e) => Err(e)
      case Ok(None) => Collect(c, path, q, xs[..i])
      case Ok(Some(a)) => Ok(Collect(c, path, q, xs[..i]).value + [a])
  {
    assert xs[..i + 1][..i] == xs[..i];
  }

  /** `_list_dir_info` as the source runs it: the extended branches build the
      output with an append loop, the others are the list comprehensions. */
  method ListDirInfo(c: Client, path: string, otype: string, key: Option<string>,
                     ignoreError: bool, filter: SearchExpressionList?, extended: bool)
    returns (r: Result<Option<seq<Attr>>>)
    ensures r == DirInfo(c, path, Query(otype, key, ignoreError, TokensOf(filter), extended))
  {
    var listing := Fetch(c, path);
    if listing.None? {
      if !ignoreError {
        return Err(IOError(path));
      }
      return Ok(None);
    }
    var out: Result<seq<Attr>>;
    if extended {
      out := ExtendedListing(c, path, otype, key, ignoreError, filter, listing.value);
    } else {
      out := Collect(c, path, Query(otype, key, ignoreError, TokensOf(filter), false), listing.value);
    }
    if out.Err? {
      return Err(out.error);
    }
    return Ok(Some(out.value));
  }

  /** The append loop of the extended branches over the records `xs`. */
  method ExtendedListing(c: Client, path: string, otype: string, key: Option<string>,
                         ignoreError: bool, filter: SearchExpressionList?, xs: seq<Record>)
    returns (r: Result<seq<Attr>>)
    ensures r == Collect(c, path, Query(otype, key, ignoreError, TokensOf(filter), true), xs)
  {
    ghost var q := Query(otype, key, ignoreError, TokensOf(filter), true);
    var outlist: seq<Attr> := [];
    var i := 0;
    while i < |xs|
      invariant 0 <= i <= |xs|
      invariant Collect(c, path, q, xs[..i]) == Ok(outlist)
    {
      var step: Result<Option<Attr>>;
      if otype == "all" {
        step := ExtendedAllEntry(c, path, key, ignoreError, filter, xs[i]);
      } else {
        step := ExtendedTypedEntry(c, path, otype, key, ignoreError, filter, xs[i]);
      }
      CollectStep(c, path, q, xs, i);
      assert step == Entry(c, path, q, xs[i]);
      if step.Err? {
        CollectPrefixError(c, path, q, xs, i + 1);
        return Err(step.error);
      }
      if step.value.Some? {
        outlist := outlist + [step.value.value];
      }
      i := i + 1;
    }
    assert xs[..i] == xs;
    return Ok(outlist);
  }

  /** Loop body of the extended "all" branch for one record. */
  method ExtendedAllEntry(c: Client, path: string, key: Option<string>, ignoreError: bool,
                          filter: SearchExpressionList?, x: Record)
    returns (step: Result<Option<Attr>>)
    ensures step == Entry(c, path, Query("all", key, ignoreError, TokensOf(filter), true), x)
  {
    if filter != null {
      var m := filter.Match(x, c.lib);
      if m.Err? {
        return Err(m.error);
      }
      if !m.value {
        return Ok(None);
      }
    }
    var full := FullPath(path, x);
    if full.Err? {
      return Err(full.error);
    }
    if "type" !in x {
      return Err(KeyError("type"));
    }
    var ext: Record;
    if x["type"] == Str("DIRECTORY") {
      var summary := ContentSummary(c, full.value, ignoreError);
      if summary.Err? {
        return Err(summary.error);
      }
      ext := MergeDict(x, if summary.value == map[] then ZeroedInfo() else summary.value);
    } else if x["type"] == Str("FILE") || x["type"] == Str("SYMLINK") {
      var info := FileStats(x);
      if info.Err? {
        return Err(info.error);
      }
      ext := MergeDict(x, info.value);
    } else {
      ext := MergeDict(x, ZeroedInfo());
    }
    var a := ListAttribute(ext, key);
    if a.Err? {
      return Err(a.error);
    }
    return Ok(Some(a.value));
  }

  /** Loop body of the extended branch for "file", "dir" or "symlink". */
  method ExtendedTypedEntry(c: Client, path: string, otype: string, key: Option<string>,
                            ignoreError: bool, filter: SearchExpressionList?, x: Record)
    returns (step: Result<Option<Attr>>)
    requires otype != "all"
    ensures step == Entry(c, path, Query(otype, key, ignoreError, TokensOf(filter), true), x)
  {
    if "type" !in x {
      return Err(KeyError("type"));
    }
    if otype !in TypeMap {
      return Err(KeyError(otype));
    }
    if x["type"] != Str(TypeMap[otype]) {
      return Ok(None);
    }
    if filter != null {
      var m := filter.Match(x, c.lib);
      if m.Err? {
        return Err(m.error);
      }
      if !m.value {
        return Ok(None);
      }
    }
    var full := FullPath(path, x);
    if full.Err? {
      return Err(full.error);
    }
    var ext: Record;
    if otype == "dir" {
      var summary := ContentSummary(c, full.value, ignoreError);
      if summary.Err? {
        return Err(summary.error);
      }
      ext := MergeDict(x, summary.value);
    } else if otype == "file" {
      var info := FileStats(x);
      if info.Err? {
        return Err(info.error);
      }
      ext := MergeDict(x, info.value);
    } else {
      ext := MergeDict(x, ZeroedInfo());
    }
    var a := ListAttribute(ext, key);
    if a.Err? {
      return Err(a.error);
    }
    return Ok(Some(a.value));
  }

  /** The one-expression filter the public calls build from a name pattern. */
  function PatternFilter(pattern: string, patternType: string): (r: Result<Option<seq<Token>>>)
    ensures r.Err? <==> pattern != "" && patternType !in WhdfsSearch.Operators
    ensures pattern == "" ==> r == Ok(None)
    ensures r.Ok? && pattern != "" ==>
      r.value == Some([Expr(SearchExpression("pathSuffix", WhdfsSearch.Operators[patternType], Str(pattern)))])
  {
    if pattern == "" then Ok(None)
    else
      match WhdfsSearch.Expression(WhdfsSearch.PathKey, patternType, Str(pattern))
      case Err(e) => Err(e)
      case Ok(e) => Ok(Some([Expr(e)]))
  }

  /** The records of `xs` whose type is `t` (when given) and that the filter
      keeps, in order; the type is checked first. */
  function Select(xs: seq<Record>, t: Option<string>, filter: Option<seq<Token>>, lib: Library): (r: Result<seq<Record>>)
    ensures r.Ok? ==> |r.value| <= |xs|
    ensures r.Ok? ==> forall y :: y in r.value ==>
      y in xs && Pass(filter, y, lib) == Ok(true) && (t.Some? ==> IsType(y, t.value))
    decreases |xs|
  {
    if xs == [] then Ok([])
    else
      match Select(xs[..|xs| - 1], t, filter, lib)
      case Err(e) => Err(e)
      case Ok(out) =>
        var x := xs[|xs| - 1];
        if t.Some? && "type" !in x then Err(KeyError("type"))
        else if t.Some? && x["type"] != Str(t.value) then Ok(out)
        else
          match Pass(filter, x, lib)
          case Err(e) => Err(e)
          case Ok(keep) => if keep then Ok(out + [x]) else Ok(out)
  }

  /** The selection keeps the children's order: it is a subsequence of
      them, picked at increasing positions. */
  lemma {:induction false} SelectInOrder(xs: seq<Record>, t: Option<string>, filter: Option<seq<Token>>, lib: Library)
    returns (idx: seq<nat>)
    requires Select(xs, t, filter, lib).Ok?
    ensures |idx| == |Select(xs, t, filter, lib).value|
    ensures forall j :: 0 <= j < |idx| ==> idx[j] < |xs| && Select(xs, t, filter, lib).value[j] == xs[idx[j]]
    ensures forall i, j :: 0 <= i < j < |idx| ==> idx[i] < idx[j]
    decreases |xs|
  {
    if xs == [] {
      idx := [];
    } else {
      var init := xs[..|xs| - 1];
      var before := SelectInOrder(init, t, filter, lib);
      var out := Select(init, t, filter, lib).value;
      if Select(xs, t, filter, lib).value == out {
        idx := before;
      } else {
        assert Select(xs, t, filter, lib).value == out + [xs[|xs| - 1]];
        idx := before + [|xs| - 1];
      }
    }
  }

  /** Nothing the filter keeps is dropped. */
  lemma {:induction false} SelectComplete(xs: seq<Record>, t: Option<string>, filter: Option<seq<Token>>, lib: Library)
    requires Select(xs, t, filter, lib).Ok?
    ensures forall x :: x in xs && (t.Some? ==> IsType(x, t.value)) && Pass(filter, x, lib) == Ok(true) ==>
      x in Select(xs, t, filter, lib).value
    decreases |xs|
  {
    if xs != [] {
      var init := xs[..|xs| - 1];
      SelectComplete(init, t, filter, lib);
      forall x | x in xs && (t.Some? ==> IsType(x, t.value)) && Pass(filter, x, lib) == Ok(true)
        ensures x in Select(xs, t, filter, lib).value
      {
        if x != xs[|xs| - 1] {
          var k :| 0 <= k < |xs| && xs[k] == x;
          assert init[k] == x;
        }
      }
    }
  }

  /** When every record is a file, a directory or a symbolic link, the three
      typed selections split the untyped one. */
  lemma {:induction false} SelectPartition(xs: seq<Record>, filter: Option<seq<Token>>, lib: Library)
    requires forall x :: x in xs ==> IsType(x, "FILE") || IsType(x, "DIRECTORY") || IsType(x, "SYMLINK")
    requires Select(xs, None, filter, lib).Ok?
    ensures Select(xs, Some("FILE"), filter, lib).Ok?
    ensures Select(xs, Some("DIRECTORY"), filter, lib).Ok?
    ensures Select(xs, Some("SYMLINK"), filter, lib).Ok?
    ensures multiset(Select(xs, Some("FILE"), filter, lib).value)
          + multiset(Select(xs, Some("DIRECTORY"), filter, lib).value)
          + multiset(Select(xs, Some("SYMLINK"), filter, lib).value)
         == multiset(Select(xs, None, filter, lib).value)
    decreases |xs|
  {
    if xs != [] {
      var init := xs[..|xs| - 1];
      assert forall y :: y in init ==> y in xs;
      assert Select(init, None, filter, lib).Ok?;
      SelectPartition(init, filter, lib);
      PartitionStep(xs, filter, lib);
    }
  }

  /** The inductive step of `SelectPartition`: the split of all but the last
      record extends to the split of all of them. */
  lemma PartitionStep(xs: seq<Record>, filter: Option<seq<Token>>, lib: Library)
    requires xs != [] && (IsType(xs[|xs| - 1], "FILE") || IsType(xs[|xs| - 1], "DIRECTORY") || IsType(xs[|xs| - 1], "SYMLINK"))
    requires Select(xs, None, filter, lib).Ok?
    requires var init := xs[..|xs| - 1];
      && Select(init, Some("FILE"), filter, lib).Ok?
      && Select(init, Some("DIRECTORY"), filter, lib).Ok?
      && Select(init, Some("SYMLINK"), filter, lib).Ok?
      && multiset(Select(init, Some("FILE"), filter, lib).value)
       + multiset(Select(init, Some("DIRECTORY"), filter, lib).value)
       + multiset(Select(init, Some("SYMLINK"), filter, lib).value)
      == multiset(Select(init, None, filter, lib).value)
    ensures Select(xs, Some("FILE"), filter, lib).Ok?
    ensures Select(xs, Some("DIRECTORY"), filter, lib).Ok?
    ensures Select(xs, Some("SYMLINK"), filter, lib).Ok?
    ensures multiset(Select(xs, Some("FILE"), filter, lib).value)
          + multiset(Select(xs, Some("DIRECTORY"), filter, lib).value)
          + multiset(Select(xs, Some("SYMLINK"), filter, lib).value)
         == multiset(Select(xs, None, filter, lib).value)
  {
    var init := xs[..|xs| - 1];
    var x := xs[|xs| - 1];
    var p := Pass(filter, x, lib);
    assert p.Ok?;
    SelectStep(xs, None, filter, lib);
    SelectStep(xs, Some("FILE"), filter, lib);
    SelectStep(xs, Some("DIRECTORY"), filter, lib);
    SelectStep(xs, Some("SYMLINK"), filter, lib);
    var extra := if p.value then multiset{x} else multiset{};
    var f0 := multiset(Select(init, Some("FILE"), filter, lib).value);
    var d0 := multiset(Select(init, Some("DIRECTORY"), filter, lib).value);
    var s0 := multiset(Select(init, Some("SYMLINK"), filter, lib).value);
    AddToPart(f0, d0, s0, extra);
  }

  /** Adding the same elements to the whole and to one of its three parts
      keeps it the sum of the parts. */
  lemma AddToPart<T>(f: multiset<T>, d: multiset<T>, s: multiset<T>, e: multiset<T>)
    ensures (f + e) + d + s == (f + d + s) + e
    ensures f + (d + e) + s == (f + d + s) + e
    ensures f + d + (s + e) == (f + d + s) + e
  {
  }

  /** One record added at the end of a selection. */
  lemma SelectStep(xs: seq<Record>, t: Option<string>, filter: Option<seq<Token>>, lib: Library)
    requires xs != [] && "type" in xs[|xs| - 1]
    requires Select(xs[..|xs| - 1], t, filter, lib).Ok? && Pass(filter, xs[|xs| - 1], lib).Ok?
    ensures Select(xs, t, filter, lib).Ok?
    ensures var x := xs[|xs| - 1];
      multiset(Select(xs, t, filter, lib).value)
        == multiset(Select(xs[..|xs| - 1], t, filter, lib).value)
         + if (t.None? || IsType(x, t.value)) && Pass(filter, x, lib).value then multiset{x} else multiset{}
  {
  }

  function Wholes(rs: seq<Record>): (r: seq<Attr>)
    ensures |r| == |rs| && forall i :: 0 <= i < |rs| ==> r[i] == Whole(rs[i])
  {
    seq(|rs|, i requires 0 <= i < |rs| => Whole(rs[i]))
  }

  /** The type a listing of object type `otype` keeps, none for "all". */
  function Kind(otype: string): Option<string>
  {
    if otype == "all" then None else if otype in TypeMap then Some(TypeMap[otype]) else None
  }

  /** A plain (not extended) listing of whole records is the selection of the
      child records by type and filter. */
  lemma {:induction false} PlainListing(c: Client, path: string, q: Query, xs: seq<Record>)
    requires !q.extended && q.key == Some("all")
    requires q.otype == "all" || q.otype in TypeMap
    ensures Collect(c, path, q, xs).Ok? <==> Select(xs, Kind(q.otype), q.filter, c.lib).Ok?
    ensures Collect(c, path, q, xs).Ok? ==>
      Collect(c, path, q, xs).value == Wholes(Select(xs, Kind(q.otype), q.filter, c.lib).value)
    ensures Collect(c, path, q, xs).Err? ==>
      Collect(c, path, q, xs).error == Select(xs, Kind(q.otype), q.filter, c.lib).error
    decreases |xs|
  {
    if xs != [] {
      var init := xs[..|xs| - 1];
      PlainListing(c, path, q, init);
      PlainEntry(c, path, q, xs[|xs| - 1]);
      var s := Select(init, Kind(q.otype), q.filter, c.lib);
      if s.Ok? {
        assert Wholes(s.value + [xs[|xs| - 1]]) == Wholes(s.value) + [Whole(xs[|xs| - 1])];
      }
    }
  }

  /** One record of a plain listing of whole records: the step `Select`
      takes for it, with the record made whole. */
  lemma PlainEntry(c: Client, path: string, q: Query, x: Record)
    requires !q.extended && q.key == Some("all")
    requires q.otype == "all" || q.otype in TypeMap
    ensures Entry(c, path, q, x) ==
      var t := Kind(q.otype);
      if t.Some? && "type" !in x then Err(KeyError("type"))
      else if t.Some? && x["type"] != Str(t.value) then Ok(None)
      else
        match Pass(q.filter, x, c.lib)
        case Err(e) => Err(e)
        case Ok(keep) => if keep then Ok(Some(Whole(x))) else Ok(None)
  {
    AllKeyIsAll();
  }

  /** The entry of a record that the type test and the filter keep: its
      extension when the listing is extended, then its projection on the key. */
  function Projection(c: Client, path: string, q: Query, x: Record): (r: Result<Attr>)
    ensures !q.extended && IsAll(q.key) ==> r == Ok(Whole(x))
    ensures !q.extended && !IsAll(q.key) && q.key.value in WhdfsSearch.Keys
            && WhdfsSearch.Keys[q.key.value] in x ==>
      r == Ok(Field(x[WhdfsSearch.Keys[q.key.value]]))
  {
    match (if q.extended then Extend(c, path, q.otype, q.ignoreError, x) else Ok(x))
    case Err(e) => Err(e)
    case Ok(y) => ListAttribute(y, q.key)
  }

  /** The projections of the records `ys`, in order; the first failing one
      ends them. */
  function Projections(c: Client, path: string, q: Query, ys: seq<Record>): (r: Result<seq<Attr>>)
    ensures r.Ok? ==> |r.value| == |ys|
    decreases |ys|
  {
    if ys == [] then Ok([])
    else
      match Projections(c, path, q, ys[..|ys| - 1])
      case Err(e) => Err(e)
      case Ok(out) =>
        match Projection(c, path, q, ys[|ys| - 1])
        case Err(e) => Err(e)
        case Ok(a) => Ok(out + [a])
  }

  /** Projecting one more record. */
  lemma ProjectionsSnoc(c: Client, path: string, q: Query, ys: seq<Record>, y: Record)
    ensures Projections(c, path, q, ys + [y]) ==
      match Projections(c, path, q, ys)
      case Err(e) => Err(e)
      case Ok(out) =>
        match Projection(c, path, q, y)
        case Err(e) => Err(e)
        case Ok(a) => Ok(out + [a])
  {
    assert (ys + [y])[..|ys|] == ys;
  }

  /** Every record of `ys` has its projection among the projections. */
  lemma {:induction false} ProjectionsContain(c: Client, path: string, q: Query, ys: seq<Record>, y: Record)
    requires y in ys && Projections(c, path, q, ys).Ok?
    ensures Projection(c, path, q, y).Ok?
    ensures Projection(c, path, q, y).value in Projections(c, path, q, ys).value
    decreases |ys|
  {
    var init := ys[..|ys| - 1];
    if y != ys[|ys| - 1] {
      assert ys == init + [ys[|ys| - 1]];
      ProjectionsContain(c, path, q, init, y);
    }
  }

  /** One record of a listing of a known object type: the step `Select`
      takes for it, then its projection when it is kept. */
  lemma EntryStep(c: Client, path: string, q: Query, x: Record)
    requires q.otype == "all" || q.otype in TypeMap
    ensures Entry(c, path, q, x) ==
      var t := Kind(q.otype);
      if t.Some? && "type" !in x then Err(KeyError("type"))
      else if t.Some? && x["type"] != Str(t.value) then Ok(None)
      else
        match Pass(q.filter, x, c.lib)
        case Err(e) => Err(e)
        case Ok(keep) =>
          if !keep then Ok(None)
          else
            match Projection(c, path, q, x)
            case Err(e) => Err(e)
            case Ok(a) => Ok(Some(a))
  {
  }

  /** Every listing of a known object type, in any mode and for any key, is
      the selection of the children by type and filter, projected record by
      record: it succeeds exactly when the selection and all its projections
      do, and then it is those projections. */
  lemma {:induction false} ListingIsSelection(c: Client, path: string, q: Query, xs: seq<Record>)
    requires q.otype == "all" || q.otype in TypeMap
    ensures var s := Select(xs, Kind(q.otype), q.filter, c.lib);
      && (Collect(c, path, q, xs).Ok? <==> s.Ok? && Projections(c, path, q, s.value).Ok?)
      && (Collect(c, path, q, xs).Ok? ==> Collect(c, path, q, xs).value == Projections(c, path, q, s.value).value)
    decreases |xs|
  {
    if xs != [] {
      var init := xs[..|xs| - 1];
      var x := xs[|xs| - 1];
      ListingIsSelection(c, path, q, init);
      EntryStep(c, path, q, x);
      var s0 := Select(init, Kind(q.otype), q.filter, c.lib);
      if s0.Ok? {
        ProjectionsSnoc(c, path, q, s0.value, x);
      }
    }
  }

  /** A listing of an object type the type map does not know fails on its
      first child. */
  lemma UnknownTypeFails(c: Client, path: string, q: Query, xs: seq<Record>)
    requires q.otype != "all" && q.otype !in TypeMap && xs != []
    ensures Collect(c, path, q, xs).Err?
  {
    var x := xs[|xs| - 1];
    assert Entry(c, path, q, x).Err?;
  }

  /** Every entry of a listing comes from one child record. */
  lemma {:induction false} CollectOrigin(c: Client, path: string, q: Query, xs: seq<Record>)
    requires Collect(c, path, q, xs).Ok?
    ensures forall a :: a in Collect(c, path, q, xs).value ==>
      exists x :: x in xs && Entry(c, path, q, x) == Ok(Some(a))
    decreases |xs|
  {
    if xs != [] {
      var init := xs[..|xs| - 1];
      CollectOrigin(c, path, q, init);
      forall a | a in Collect(c, path, q, xs).value
        ensures exists x :: x in xs && Entry(c, path, q, x) == Ok(Some(a))
      {
        if a in Collect(c, path, q, init).value {
          var x :| x in init && Entry(c, path, q, x) == Ok(Some(a));
          assert x in xs;
        } else {
          assert Entry(c, path, q, xs[|xs| - 1]) == Ok(Some(a));
        }
      }
    }
  }

  /** An entry is made only for a record the filter keeps; in a plain
      listing it is the record's own projection. */
  lemma EntryKept(c: Client, path: string, q: Query, x: Record)
    requires Entry(c, path, q, x).Ok? && Entry(c, path, q, x).value.Some?
    ensures Pass(q.filter, x, c.lib) == Ok(true)
    ensures !q.extended ==> Entry(c, path, q, x) == Project(Ok(x), q.key)
  {
  }

  /** The name listing with a one-expression glob filter: an entry is a
      name the pattern matches. */
  lemma GlobNameEntry(c: Client, path: string, q: Query, x: Record, a: Attr, pattern: string)
    requires !q.extended && q.key == Some(WhdfsSearch.PathKey)
    requires q.filter == Some([Expr(SearchExpression("pathSuffix", Glob, Str(pattern)))])
    requires pattern != "" && Entry(c, path, q, x) == Ok(Some(a))
    ensures a.Field? && a.value.Str? && c.lib.fnmatch(pattern, a.value.s)
  {
    var e := SearchExpression("pathSuffix", Glob, Str(pattern));
    EntryKept(c, path, q, x);
    SingleExpression(e, x, c.lib);
    assert !IsAll(q.key);
    assert a == Field(x["pathSuffix"]);
  }

  /** `list_dir` with a glob pattern: every name it returns is a string the
      pattern matches; an empty path is refused before any request. */
  lemma ListDirNamesMatch(c: Client, path: string, otype: string, pattern: string, ignoreError: bool)
    ensures ListDir(c, "", otype, pattern, "glob", ignoreError) == Err(MissingArgumentError("Path not provided"))
    ensures pattern != "" && ListDir(c, path, otype, pattern, "glob", ignoreError).Ok? &&
            ListDir(c, path, otype, pattern, "glob", ignoreError).value.Some? ==>
      forall a :: a in ListDir(c, path, otype, pattern, "glob", ignoreError).value.value ==>
        a.Field? && a.value.Str? && c.lib.fnmatch(pattern, a.value.s)
  {
    var r := ListDir(c, path, otype, pattern, "glob", ignoreError);
    if pattern != "" && r.Ok? && r.value.Some? {
      var e := SearchExpression("pathSuffix", Glob, Str(pattern));
      var f := Some([Expr(e)]);
      assert PatternFilter(pattern, "glob") == Ok(f);
      var q := Query(otype, Some(WhdfsSearch.PathKey), ignoreError, f, false);
      assert r == DirInfo(c, path, q);
      var xs := Fetch(c, path).value;
      assert r.value.value == Collect(c, path, q, xs).value;
      CollectOrigin(c, path, q, xs);
      forall a | a in r.value.value
        ensures a.Field? && a.value.Str? && c.lib.fnmatch(pattern, a.value.s)
      {
        var x :| x in xs && Entry(c, path, q, x) == Ok(Some(a));
        GlobNameEntry(c, path, q, x, a, pattern);
      }
    }
  }

  /** The query `list_dir` makes for a glob pattern. */
  function GlobNameQuery(otype: string, pattern: string, ignoreError: bool): Query
  {
    Query(otype, Some(WhdfsSearch.PathKey), ignoreError,
          Some([Expr(SearchExpression("pathSuffix", Glob, Str(pattern)))]), false)
  }

  /** `list_dir` with a non-empty glob pattern lists by that query. */
  lemma ListDirGlobQuery(c: Client, path: string, otype: string, pattern: string, ignoreError: bool)
    requires path != "" && pattern != ""
    ensures ListDir(c, path, otype, pattern, "glob", ignoreError) == DirInfo(c, path, GlobNameQuery(otype, pattern, ignoreError))
  {
    assert PatternFilter(pattern, "glob") == Ok(GlobNameQuery(otype, pattern, ignoreError).filter);
  }

  /** A child whose name the glob pattern matches passes the filter of that
      query, and its entry is its name. */
  lemma GlobNameKept(c: Client, path: string, otype: string, pattern: string, ignoreError: bool, x: Record)
    requires pattern != ""
    requires "pathSuffix" in x && x["pathSuffix"].Str? && c.lib.fnmatch(pattern, x["pathSuffix"].s)
    ensures var q := GlobNameQuery(otype, pattern, ignoreError);
      Pass(q.filter, x, c.lib) == Ok(true) && Projection(c, path, q, x) == Ok(Field(x["pathSuffix"]))
  {
    var q := GlobNameQuery(otype, pattern, ignoreError);
    SingleExpression(SearchExpression("pathSuffix", Glob, Str(pattern)), x, c.lib);
    WhdfsSearch.KeysRoundTrip();
    assert !IsAll(q.key);
  }

  /** `list_dir` with a glob pattern lists the name of every child of the
      requested type whose name the pattern matches. */
  lemma ListDirNamesComplete(c: Client, path: string, otype: string, pattern: string,
                             ignoreError: bool, x: Record)
    requires otype == "all" || otype in TypeMap
    requires pattern != "" && ListDir(c, path, otype, pattern, "glob", ignoreError).Ok?
    requires Fetch(c, path).Some? && x in Fetch(c, path).value
    requires Kind(otype).Some? ==> IsType(x, Kind(otype).value)
    requires "pathSuffix" in x && x["pathSuffix"].Str? && c.lib.fnmatch(pattern, x["pathSuffix"].s)
    ensures ListDir(c, path, otype, pattern, "glob", ignoreError).value.Some?
    ensures Field(x["pathSuffix"]) in ListDir(c, path, otype, pattern, "glob", ignoreError).value.value
  {
    var q := GlobNameQuery(otype, pattern, ignoreError);
    ListDirGlobQuery(c, path, otype, pattern, ignoreError);
    GlobNameKept(c, path, otype, pattern, ignoreError, x);
    ListingComplete(c, path, q, x);
  }

  /** Any listing of a known object type that succeeds holds the entry of
      every child of that type which the filter keeps. */
  lemma ListingComplete(c: Client, path: string, q: Query, x: Record)
    requires q.otype == "all" || q.otype in TypeMap
    requires DirInfo(c, path, q).Ok? && Fetch(c, path).Some? && x in Fetch(c, path).value
    requires Kind(q.otype).Some? ==> IsType(x, Kind(q.otype).value)
    requires Pass(q.filter, x, c.lib) == Ok(true)
    ensures Projection(c, path, q, x).Ok?
    ensures DirInfo(c, path, q).value.Some?
    ensures Projection(c, path, q, x).value in DirInfo(c, path, q).value.value
  {
    var xs := Fetch(c, path).value;
    DirInfoListing(c, path, q);
    ListingIsSelection(c, path, q, xs);
    var sel := Select(xs, Kind(q.otype), q.filter, c.lib);
    assert sel.Ok? && Projections(c, path, q, sel.value).Ok?;
    SelectComplete(xs, Kind(q.otype), q.filter, c.lib);
    assert x in sel.value;
    ProjectionsContain(c, path, q, sel.value, x);
  }

  /** The listing of a directory that exists is the listing of its children. */
  lemma DirInfoListing(c: Client, path: string, q: Query)
    requires Fetch(c, path).Some?
    ensures DirInfo(c, path, q).Ok? <==> Collect(c, path, q, Fetch(c, path).value).Ok?
    ensures DirInfo(c, path, q).Ok? ==> DirInfo(c, path, q).value == Some(Collect(c, path, q, Fetch(c, path).value).value)
  {
    var xs := Fetch(c, path).value;
    assert Fetch(c, path) == Some(xs);
    assert DirInfo(c, path, q) == Found(Collect(c, path, q, xs));
  }

  /** In an extended listing of everything, a file or symbolic link gains the
      statistics of one file: no directory, one file and the raw size
      `length * replication`; its own fields stay. */
  lemma ExtendedFileEntry(c: Client, path: string, q: Query, x: Record)
    requires q.extended && q.otype == "all" && IsAll(q.key)
    requires Pass(q.filter, x, c.lib) == Ok(true) && FullPath(path, x).Ok?
    requires IsType(x, "FILE") || IsType(x, "SYMLINK")
    requires "length" in x && "replication" in x && x["length"].Int? && x["replication"].Int?
    ensures Entry(c, path, q, x).Ok? && Entry(c, path, q, x).value.Some?
    ensures var a := Entry(c, path, q, x).value.value;
      && a.Whole?
      && a.record.Keys == x.Keys + ExtendedFields
      && a.record["spaceConsumed"] == Int(x["length"].i * x["replication"].i)
      && a.record["fileCount"] == Int(1) && a.record["directoryCount"] == Int(0)
      && a.record["quota"] == Int(-1) && a.record["spaceQuota"] == Int(-1)
      && forall k :: k in x && k !in ExtendedFields ==> a.record[k] == x[k]
  {
  }

  /** In an extended listing of everything, a directory gains its content
      summary; a summary that cannot be fetched is the zeroed block when
      errors are ignored and ends the listing with an IOError otherwise. */
  lemma ExtendedDirEntry(c: Client, path: string, q: Query, x: Record)
    requires q.extended && q.otype == "all" && IsAll(q.key)
    requires Pass(q.filter, x, c.lib) == Ok(true) && FullPath(path, x).Ok?
    requires FullPath(path, x).value != "" && IsType(x, "DIRECTORY")
    ensures var full := FullPath(path, x).value;
      && (AbsPath(full) in c.summaries && c.summaries[AbsPath(full)] != map[] ==>
            Entry(c, path, q, x) == Ok(Some(Whole(MergeDict(x, c.summaries[AbsPath(full)])))))
      && (AbsPath(full) !in c.summaries && q.ignoreError ==>
            Entry(c, path, q, x) == Ok(Some(Whole(MergeDict(x, ZeroedInfo())))))
      && (AbsPath(full) in c.summaries && c.summaries[AbsPath(full)] == map[] ==>
            Entry(c, path, q, x) == Ok(Some(Whole(MergeDict(x, ZeroedInfo())))))
      && (AbsPath(full) !in c.summaries && !q.ignoreError ==>
            Entry(c, path, q, x) == Err(IOError(full)))
  {
    var full := FullPath(path, x).value;
    EntryStep(c, path, q, x);
    assert Extend(c, path, q.otype, q.ignoreError, x) ==
      match ContentSummary(c, full, q.ignoreError)
      case Err(e) => Err(e)
      case Ok(s) => Ok(MergeDict(x, if s == map[] then ZeroedInfo() else s));
  }

  /** The typed "file" extension: a file gains one file, no directory,
      quotas -1 and the raw size `length * replication`; a missing or
      non-integer length or replication is an error. */
  lemma TypedFileExtension(c: Client, path: string, ignoreError: bool, x: Record)
    requires FullPath(path, x).Ok?
    ensures "length" in x && "replication" in x && x["length"].Int? && x["replication"].Int? ==>
      Extend(c, path, "file", ignoreError, x)
        == Ok(MergeDict(x, ExtendedInfo(0, 1, -1, -1, x["length"].i * x["replication"].i)))
    ensures "length" !in x ==> Extend(c, path, "file", ignoreError, x) == Err(KeyError("length"))
    ensures "length" in x && "replication" !in x ==>
      Extend(c, path, "file", ignoreError, x) == Err(KeyError("replication"))
  {
    assert "file" != "all" by {
      assert "file"[0] != "all"[0];
    }
    assert "file" != "dir" by {
      assert "file"[0] != "dir"[0];
    }
  }

  /** The typed "dir" extension: a directory is merged with its content
      summary as fetched, with no zeroed fallback; a summary that cannot be
      fetched is an IOError unless errors are ignored. */
  lemma TypedDirExtension(c: Client, path: string, ignoreError: bool, x: Record)
    requires FullPath(path, x).Ok?
    ensures var full := FullPath(path, x).value;
      && (full == "" ==> Extend(c, path, "dir", ignoreError, x) == Err(MissingArgumentError("Path not provided")))
      && (full != "" && AbsPath(full) in c.summaries ==>
            Extend(c, path, "dir", ignoreError, x) == Ok(MergeDict(x, c.summaries[AbsPath(full)])))
      && (full != "" && AbsPath(full) !in c.summaries && !ignoreError ==>
            Extend(c, path, "dir", ignoreError, x) == Err(IOError(full)))
  {
    assert "dir" != "all" by {
      assert "dir"[0] != "all"[0];
    }
  }

  /** The typed "symlink" extension: a link gains the zeroed block. */
  lemma TypedLinkExtension(c: Client, path: string, ignoreError: bool, x: Record)
    requires FullPath(path, x).Ok?
    ensures Extend(c, path, "symlink", ignoreError, x) == Ok(MergeDict(x, ZeroedInfo()))
  {
    assert "symlink" != "all" && "symlink" != "dir" && "symlink" != "file" by {
      assert |"symlink"| == 7;
    }
  }

  /** A record of the type a typed listing asks for, kept by the filter, is
      projected after its extension. */
  lemma TypedEntry(c: Client, path: string, q: Query, x: Record)
    requires q.otype != "all" && q.otype in TypeMap && IsType(x, TypeMap[q.otype])
    requires Pass(q.filter, x, c.lib) == Ok(true)
    ensures Entry(c, path, q, x) ==
      Project(if q.extended then Extend(c, path, q.otype, q.ignoreError, x) else Ok(x), q.key)
  {
  }

  /** The "dir" extension of a directory whose summary is missing, under
      ignored errors, adds nothing. */
  lemma DirExtendWithoutSummary(c: Client, path: string, x: Record)
    requires FullPath(path, x).Ok? && FullPath(path, x).value != ""
    requires AbsPath(FullPath(path, x).value) !in c.summaries
    ensures Extend(c, path, "dir", true, x) == Ok(x)
  {
    assert ContentSummary(c, FullPath(path, x).value, true) == Ok(map[]);
    assert "dir" != "all" by {
      assert "dir"[0] != "all"[0];
    }
    MergeWithEmpty(x);
  }

  /** The typed "dir" extended listing has no zeroed fallback: a directory
      whose summary cannot be fetched keeps only its own fields. */
  lemma TypedDirNoFallback(c: Client, path: string, q: Query, x: Record)
    requires q.extended && q.otype == "dir" && IsAll(q.key) && q.ignoreError
    requires IsType(x, "DIRECTORY") && Pass(q.filter, x, c.lib) == Ok(true)
    requires FullPath(path, x).Ok? && FullPath(path, x).value != ""
    requires AbsPath(FullPath(path, x).value) !in c.summaries
    ensures Entry(c, path, q, x) == Ok(Some(Whole(x)))
  {
    assert q.otype != "all" by {
      assert q.otype[0] != "all"[0];
    }
    TypeMapEntries();
    TypedEntry(c, path, q, x);
    DirExtendWithoutSummary(c, path, x);
    ProjectWhole(x, q.key);
  }

  /** Projecting a record on no key or on "all" keeps all of it. */
  lemma ProjectWhole(x: Record, key: Option<string>)
    requires IsAll(key)
    ensures Project(Ok(x), key) == Ok(Some(Whole(x)))
  {
  }

  /** The typed "file" listing keeps files only: a symbolic link is never in
      it, whatever the filter says. */
  lemma FileListingExcludesLinks(c: Client, path: string, q: Query, x: Record)
    requires q.otype == "file" && IsType(x, "SYMLINK")
    ensures Entry(c, path, q, x) == Ok(None)
  {
  }
  /** The names of the children, as `list_dir` returns them. */
  function ListDir(c: Client, path: string, otype: string, pattern: string,
                   patternType: string, ignoreError: bool): (r: Result<Option<seq<Attr>>>)
    ensures path == "" ==> r == Err(MissingArgumentError("Path not provided"))
    ensures path != "" && pattern == "" ==>
      r == DirInfo(c, path, Query(otype, Some(WhdfsSearch.PathKey), ignoreError, None, false))
    ensures path != "" && pattern != "" && patternType !in WhdfsSearch.Operators ==> r.Err?
    ensures path != "" && Fetch(c, path).None? && r.Ok? ==> r == Ok(None)
  {
    if path == "" then Err(MissingArgumentError("Path not provided"))
    else
      match PatternFilter(pattern, patternType)
      case Err(e) => Err(e)
      case Ok(f) => DirInfo(c, path, Query(otype, Some(WhdfsSearch.PathKey), ignoreError, f, false))
  }

  /** The whole child records, extended on request, as `long_list_dir`
      returns them. */
  function LongListDir(c: Client, path: string, otype: string, pattern: string,
                       patternType: string, ignoreError: bool, extended: bool): (r: Result<Option<seq<Attr>>>)
    ensures pattern == "" ==> r == DirInfo(c, path, Query(otype, Some("all"), ignoreError, None, extended))
    ensures r.Ok? && r.value.Some? ==> AllWhole(r.value.value)
  {
    AllKeyIsAll();
    match PatternFilter(pattern, patternType)
    case Err(e) => Err(e)
    case Ok(f) => DirInfo(c, path, Query(otype, Some("all"), ignoreError, f, extended))
  }

  /** The one-expression list `list_dir` and `long_list_dir` build from a
      name pattern, or none for an empty pattern. */
  method PatternList(pattern: string, patternType: string) returns (r: Result<SearchExpressionList?>)
    ensures r.Ok? <==> PatternFilter(pattern, patternType).Ok?
    ensures r.Err? ==> r.error == PatternFilter(pattern, patternType).error
    ensures r.Ok? ==> TokensOf(r.value) == PatternFilter(pattern, patternType).value
  {
    if pattern == "" {
      return Ok(null);
    }
    var e := WhdfsSearch.Expression(WhdfsSearch.PathKey, patternType, Str(pattern));
    if e.Err? {
      return Err(e.error);
    }
    var list := new SearchExpressionList(Some(e.value));
    return Ok(list);
  }

  /** `list_dir`. */
  method ListDirectory(c: Client, path: string, otype: string, pattern: string,
                       patternType: string, ignoreError: bool) returns (r: Result<Option<seq<Attr>>>)
    ensures r == ListDir(c, path, otype, pattern, patternType, ignoreError)
  {
    if path == "" {
      return Err(MissingArgumentError("Path not provided"));
    }
    var filter := PatternList(pattern, patternType);
    if filter.Err? {
      return Err(filter.error);
    }
    r := ListDirInfo(c, path, otype, Some(WhdfsSearch.PathKey), ignoreError, filter.value, false);
  }

  /** `long_list_dir`. */
  method LongListDirectory(c: Client, path: string, otype: string, pattern: string,
                           patternType: string, ignoreError: bool, extended: bool)
    returns (r: Result<Option<seq<Attr>>>)
    ensures r == LongListDir(c, path, otype, pattern, patternType, ignoreError, extended)
  {
    var filter := PatternList(pattern, patternType);
    if filter.Err? {
      return Err(filter.error);
    }
    r := ListDirInfo(c, path, otype, Some("all"), ignoreError, filter.value, extended);
  }
}
