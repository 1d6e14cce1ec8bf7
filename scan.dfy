/** The recursive directory walk of the WebHDFS client (`_scan_dir` and
    `scan_dir` in core/webhdfs.py). The generator is modelled by the finite
    sequence of triples it yields together with the exception, if any, that
    ends it. */
module WebhdfsScan {
  import opened Common
  import opened Records
  import opened Util
  import opened Search
  import opened Webhdfs

  /** One value yielded by the walk: a directory, the child directories and
      the files it reports. */
  datatype Triple = Triple(root: string, dirs: seq<Record>, files: seq<Record>)

  /** What a consumer of the generator sees: the triples yielded, and the
      exception raised after the last of them. */
  datatype Walk = Walk(out: seq<Triple>, failure: Option<Error>)

  /** A generator that runs `w1` to the end and then `w2`; a failure in
      `w1` ends both. */
  function Then(w1: Walk, w2: Walk): (r: Walk)
    ensures w1.failure.Some? ==> r == w1
    ensures w1.failure.None? ==> r.out == w1.out + w2.out && r.failure == w2.failure
  {
    if w1.failure.Some? then w1 else Walk(w1.out + w2.out, w2.failure)
  }

  /** The fixed arguments `_scan_dir` passes down its recursion, with the
      extended listing it asks of the client (`list`, see `Listing`) and the
      matching engines the filter uses. */
  datatype Scan = Scan(otype: string, level: int, filter: Option<seq<Token>>, skip: set<string>,
                       list: string -> Result<seq<Record>>, lib: Library)

  /** The depths still to be walked below `depth`. */
  function Budget(depth: int, level: int): nat
  {
    if depth <= level then level - depth + 1 else 0
  }

  /** The prefix of a child's path: the root "/" contributes nothing. */
  function Base(fullpath: string): (b: string)
    ensures fullpath <= b + "/"
    ensures fullpath == "/" ==> b == ""
    ensures fullpath != "/" ==> b == fullpath
  {
    if fullpath == "/" then "" else fullpath
  }

  /** The query of the listing the walk asks for at each directory:
      `long_list_dir(path, otype="all", ignore_error, ext_status=True)`,
      whole records of every type, extended, with no pattern. */
  function WalkQuery(ignoreError: bool): Query
  {
    Query("all", Some("all"), ignoreError, None, true)
  }

  /** With no pattern, `long_list_dir` is exactly the walk's query, whatever
      the pattern type. */
  lemma WalkQueryIsLongListing(c: Client, fullpath: string, patternType: string, ignoreError: bool)
    ensures LongListDir(c, fullpath, "all", "", patternType, ignoreError, true)
         == DirInfo(c, fullpath, WalkQuery(ignoreError))
  {
  }

  /** The records of a listing of whole records. */
  function WholeRecords(attrs: seq<Attr>): (rs: seq<Record>)
    ensures |rs| == |attrs|
    ensures forall i :: 0 <= i < |attrs| && attrs[i].Whole? ==> rs[i] == attrs[i].record
  {
    seq(|attrs|, i requires 0 <= i < |attrs| => if attrs[i].Whole? then attrs[i].record else map[])
  }

  /** The walk's listing of a directory as whole records; a listing that
      failed under ignored errors is empty. */
  function Listing(c: Client, fullpath: string, ignoreError: bool): (r: Result<seq<Record>>)
    ensures Fetch(c, fullpath).None? ==> r == if ignoreError then Ok([]) else Err(IOError(fullpath))
    ensures Fetch(c, fullpath) == Some([]) ==> r == Ok([])
    ensures r.Ok? && Fetch(c, fullpath).Some? ==> |r.value| <= |Fetch(c, fullpath).value|
  {
    match DirInfo(c, fullpath, WalkQuery(ignoreError))
    case Err(e) => Err(e)
    case Ok(None) => Ok([])
    case Ok(Some(attrs)) => Ok(WholeRecords(attrs))
  }

  /** Every record the walk lists has a type and a name, the two fields the
      walk reads. */
  lemma ListingRecords(c: Client, fullpath: string, ignoreError: bool)
    ensures Listing(c, fullpath, ignoreError).Ok? ==>
      forall x :: x in Listing(c, fullpath, ignoreError).value ==> "type" in x && "pathSuffix" in x
  {
    AllKeyIsAll();
    var l := DirInfo(c, fullpath, WalkQuery(ignoreError));
    if l.Ok? && l.value.Some? {
      WholeRecordsFields(l.value.value);
    }
  }

  /** Whole records that carry a type and a name keep them as records. */
  lemma WholeRecordsFields(attrs: seq<Attr>)
    requires AllNamed(attrs)
    ensures forall x :: x in WholeRecords(attrs) ==> "type" in x && "pathSuffix" in x
  {
    var rs := WholeRecords(attrs);
    forall x | x in rs
      ensures "type" in x && "pathSuffix" in x
    {
      var i :| 0 <= i < |rs| && rs[i] == x;
      assert attrs[i] in attrs;
    }
  }

  /** The child directories of a non-empty listing and the triple yielded
      for it: files of type FILE and directories, each kept by the filter and
      only when the object type asks for them. */
  function Contents(fullpath: string, olist: seq<Record>, cfg: Scan): (r: Result<(seq<Record>, Triple)>)
    ensures r.Ok? ==> r.value.1.root == fullpath
    ensures r.Ok? ==> forall d :: d in r.value.0 ==> d in olist && IsType(d, "DIRECTORY")
    ensures r.Ok? ==> forall f :: f in r.value.1.files ==> f in olist
    ensures r.Ok? ==> forall d :: d in r.value.1.dirs ==> d in olist
  {
    match Select(olist, Some("DIRECTORY"), None, cfg.lib)
    case Err(e) => Err(e)
    case Ok(dlist) =>
      match (if cfg.otype == "all" || cfg.otype == "file" then Select(olist, Some("FILE"), cfg.filter, cfg.lib) else Ok([]))
      case Err(e) => Err(e)
      case Ok(files) =>
        match (if cfg.otype == "all" || cfg.otype == "dir" then Select(dlist, None, cfg.filter, cfg.lib) else Ok([]))
        case Err(e) => Err(e)
        case Ok(dirs) => Ok((dlist, Triple(fullpath, dirs, files)))
  }

  /** `_scan_dir(fullpath, pathinfo, ..., currlev=depth)`. */
  function ScanWalk(cfg: Scan, fullpath: string, info: Record, depth: int): (w: Walk)
    ensures fullpath in cfg.skip || depth > cfg.level ==> w == Walk([], None)
    ensures w.out != [] ==> w.out[0].root == fullpath
    decreases Budget(depth, cfg.level), 0, 0
  {
    if fullpath in cfg.skip || depth > cfg.level then Walk([], None)
    else if "type" !in info then Walk([], Some(KeyError("type")))
    else if info["type"] != Str("DIRECTORY") then Walk([], None)
    else
      match cfg.list(fullpath)
      case Err(e) => Walk([], Some(e))
      case Ok(olist) =>
        if olist == [] then Walk([Triple(fullpath, [], [])], None)
        else
          match Contents(fullpath, olist, cfg)
          case Err(e) => Walk([], Some(e))
          case Ok((dlist, top)) =>
            Then(Walk([top], None), ScanChildren(cfg, Base(fullpath), dlist, depth + 1))
  }

  /** The walks of the child directories `ds`, one after the other. */
  function ScanChildren(cfg: Scan, base: string, ds: seq<Record>, depth: int): (w: Walk)
    ensures w.failure.None? ==> forall d: Record :: d in ds ==> "pathSuffix" in d && d["pathSuffix"].Str?
    decreases Budget(depth, cfg.level), 1, |ds|
  {
    if ds == [] then Walk([], None)
    else if "pathSuffix" !in ds[0] then Walk([], Some(KeyError("pathSuffix")))
    else if !ds[0]["pathSuffix"].Str? then Walk([], Some(TypeError))
    else
      Then(ScanWalk(cfg, base + "/" + ds[0]["pathSuffix"].s, ds[0], depth),
           ScanChildren(cfg, base, ds[1..], depth))
  }

  /** `s.rstrip("/")`. */
  function RStrip(s: string): (r: string)
    ensures r <= s
    ensures r == [] || r[|r| - 1] != '/'
    ensures forall i :: |r| <= i < |s| ==> s[i] == '/'
    decreases |s|
  {
    if s != [] && s[|s| - 1] == '/' then RStrip(s[..|s| - 1]) else s
  }

  /** The forms the `skip_dirs` argument takes: None, a string, a list of
      strings, or any other collection (a tuple, a set, ...). */
  datatype SkipDirs = NoneGiven | Text(s: string) | Paths(xs: seq<string>) | Other(items: seq<string>)

  /** The set of paths the walk skips. None means the walk cannot test
      membership at all; a non-empty collection of another kind is refused. */
  function NormalizeSkip(skip: SkipDirs): (r: Result<Option<set<string>>>)
    ensures r.Err? <==> skip.Other? && skip.items != []
    ensures r.Ok? && r.value.None? <==> skip.NoneGiven?
    ensures skip.Text? && skip.s == "" ==> r == Ok(Some({}))
    ensures skip.Text? && skip.s != "" ==> r == Ok(Some({RStrip(skip.s)}))
    ensures skip.Paths? ==>
      && r.Ok? && r.value.Some?
      && forall p :: p in r.value.value <==> exists x :: x in skip.xs && RStrip(x) == p
    ensures skip.Other? && skip.items == [] ==> r == Ok(Some({}))
  {
    match skip
    case NoneGiven => Ok(None)
    case Text(s) => if s == "" then Ok(Some({})) else Ok(Some({RStrip(s)}))
    case Paths(xs) => Ok(Some(set x | x in xs :: RStrip(x)))
    case Other(items) =>
      if items == [] then Ok(Some({})) else Err(IllegalArgumentError("Skip dir list is not valid"))
  }

  /** The level the walk uses: none or below one means 500. */
  function EffectiveLevel(level: Option<int>): (l: int)
    ensures l >= 1
    ensures level.Some? && level.value >= 1 ==> l == level.value
    ensures level.None? || level.value < 1 ==> l == 500
  {
    if level.None? || level.value < 1 then 500 else level.value
  }

  /** The filter of the walk: a given expression list wins over a pattern. */
  function ScanFilter(pattern: string, patternType: string, given: Option<seq<Token>>): (r: Result<Option<seq<Token>>>)
    ensures given.Some? || pattern == "" ==> r == Ok(given)
    ensures given.None? && pattern != "" ==> r == PatternFilter(pattern, patternType)
  {
    if pattern != "" && given.None? then PatternFilter(pattern, patternType) else Ok(given)
  }

  /** The walk configuration `scan_dir` hands to `_scan_dir`. */
  function Walker(c: Client, otype: string, level: int, ignoreError: bool,
                  filter: Option<seq<Token>>, skip: set<string>): (cfg: Scan)
    ensures cfg.level == level && cfg.skip == skip && cfg.filter == filter && cfg.otype == otype
    ensures cfg.lib == c.lib
  {
    Scan(otype, level, filter, skip, p => Listing(c, p, ignoreError), c.lib)
  }

  /** The checks and rebindings `scan_dir` performs, once the level is
      fixed, before it starts the walk, in the source's order: the walk
      configuration and the status of the path, or none when the skip list
      is None. */
  function Prepare(c: Client, path: string, level: int, pattern: string, patternType: string,
                   otype: string, ignoreError: bool, skip: SkipDirs, given: Option<seq<Token>>)
    : (r: Result<Option<(Scan, Record)>>)
    ensures r.Ok? ==> path != "" && AbsPath(path) in c.statuses
    ensures r.Ok? ==> (r.value.None? <==> skip.NoneGiven?)
    ensures r.Ok? && r.value.Some? ==> r.value.value.0.level == level && r.value.value.1 == c.statuses[AbsPath(path)]
  {
    if path == "" then Err(MissingArgumentError("Path not provided"))
    else
      match PathStatus(c, path, false)
      case Err(e) => Err(e)
      case Ok(info) =>
        match NormalizeSkip(skip)
        case Err(e) => Err(e)
        case Ok(skipSet) =>
          match ScanFilter(pattern, patternType, given)
          case Err(e) => Err(e)
          case Ok(f) =>
            if skipSet.None? then Ok(None)
            else Ok(Some((Walker(c, otype, level, ignoreError, f, skipSet.value), info)))
  }

  /** `scan_dir`: the argument checks run at once; everything else happens
      as the generator is consumed, and a None skip list fails on the first
      membership test. */
  function ScanDir(c: Client, path: string, level: Option<int>, pattern: string, patternType: string,
                   otype: string, ignoreError: bool, skip: SkipDirs, exprList: SearchExpressionList?): (r: Result<Walk>)
    reads exprList
    ensures path == "" ==> r == Err(MissingArgumentError("Path not provided"))
    ensures r.Ok? ==> path != "" && AbsPath(path) in c.statuses
    ensures r.Ok? && !skip.NoneGiven? && r.value.out != [] ==> r.value.out[0].root == path
  {
    match Prepare(c, path, EffectiveLevel(level), pattern, patternType, otype, ignoreError, skip, TokensOf(exprList))
    case Err(e) => Err(e)
    case Ok(None) => Ok(Walk([], Some(TypeError)))
    case Ok(Some((cfg, info))) => Ok(ScanWalk(cfg, path, info, 1))
  }

  /** The argument handling of `scan_dir` as the source runs it: the level,
      the skip list and the expression list are rebound one after the
      other. */
  method PrepareScan(c: Client, path: string, level: Option<int>, pattern: string, patternType: string,
                     otype: string, ignoreError: bool, skip: SkipDirs, exprList: SearchExpressionList?)
    returns (r: Result<Option<(Scan, Record)>>)
    ensures r == Prepare(c, path, EffectiveLevel(level), pattern, patternType, otype, ignoreError, skip, TokensOf(exprList))
  {
    ghost var given := TokensOf(exprList);
    var lvl := if level.None? then 0 else level.value;
    if level.None? || lvl < 1 {
      lvl := 500;
    }
    if path == "" {
      return Err(MissingArgumentError("Path not provided"));
    }
    var info := PathStatus(c, path, false);
    if info.Err? {
      return Err(info.error);
    }
    var skipSet := NormalizeSkip(skip);
    if skipSet.Err? {
      return Err(skipSet.error);
    }
    var list := exprList;
    if pattern != "" && list == null {
      var made := PatternList(pattern, patternType);
      if made.Err? {
        return Err(made.error);
      }
      list := made.value;
    }
    var filter := TokensOf(list);
    assert ScanFilter(pattern, patternType, given) == Ok(filter);
    if skipSet.value.None? {
      return Ok(None);
    }
    assert lvl == EffectiveLevel(level);
    return Ok(Some((Walker(c, otype, lvl, ignoreError, filter, skipSet.value.value), info.value)));
  }

  /** `scan_dir`: the prepared walk, started at the path at depth one. */
  method StartScan(c: Client, path: string, level: Option<int>, pattern: string, patternType: string,
                   otype: string, ignoreError: bool, skip: SkipDirs, exprList: SearchExpressionList?)
    returns (r: Result<Walk>)
    ensures r == ScanDir(c, path, level, pattern, patternType, otype, ignoreError, skip, exprList)
  {
    var prepared := PrepareScan(c, path, level, pattern, patternType, otype, ignoreError, skip, exprList);
    if prepared.Err? {
      return Err(prepared.error);
    }
    if prepared.value.None? {
      return Ok(Walk([], Some(TypeError)));
    }
    var (cfg, info) := prepared.value.value;
    return Ok(ScanWalk(cfg, path, info, 1));
  }

  /** What every yielded triple satisfies: its directory is not skipped, its
      files are files and its directories directories that the filter keeps,
      and a list the object type does not ask for is empty. */
  ghost predicate Sound(t: Triple, cfg: Scan)
  {
    && t.root !in cfg.skip
    && (forall f :: f in t.files ==> IsType(f, "FILE") && Pass(cfg.filter, f, cfg.lib) == Ok(true))
    && (forall d :: d in t.dirs ==> IsType(d, "DIRECTORY") && Pass(cfg.filter, d, cfg.lib) == Ok(true))
    && (cfg.otype != "all" && cfg.otype != "file" ==> t.files == [])
    && (cfg.otype != "all" && cfg.otype != "dir" ==> t.dirs == [])
  }

  /** What a triple reports of its directory's listing `olist`: every file
      and every directory the filter keeps, when the object type asks for
      them. */
  ghost predicate Complete(t: Triple, olist: seq<Record>, cfg: Scan)
  {
    && (cfg.otype == "all" || cfg.otype == "file" ==>
          forall f :: f in olist && IsType(f, "FILE") && Pass(cfg.filter, f, cfg.lib) == Ok(true) ==> f in t.files)
    && (cfg.otype == "all" || cfg.otype == "dir" ==>
          forall d :: d in olist && IsType(d, "DIRECTORY") && Pass(cfg.filter, d, cfg.lib) == Ok(true) ==> d in t.dirs)
  }

  /** The triple of one directory reports exactly the files and directories
      of its listing that the filter keeps and the object type asks for, and
      the walk descends into every child directory, kept or not. */
  lemma ContentsSound(fullpath: string, olist: seq<Record>, cfg: Scan)
    requires fullpath !in cfg.skip && Contents(fullpath, olist, cfg).Ok?
    ensures var (dlist, top) := Contents(fullpath, olist, cfg).value;
      && Sound(top, cfg) && Complete(top, olist, cfg)
      && forall d :: d in olist && IsType(d, "DIRECTORY") ==> d in dlist
  {
    var (dlist, top) := Contents(fullpath, olist, cfg).value;
    DirectoriesDescended(fullpath, olist, cfg);
    if cfg.otype == "all" || cfg.otype == "file" {
      SelectComplete(olist, Some("FILE"), cfg.filter, cfg.lib);
    }
    if cfg.otype == "all" || cfg.otype == "dir" {
      SelectComplete(dlist, None, cfg.filter, cfg.lib);
    }
  }

  /** Every child directory of a listing is one the walk descends into. */
  lemma DirectoriesDescended(fullpath: string, olist: seq<Record>, cfg: Scan)
    requires Contents(fullpath, olist, cfg).Ok?
    ensures forall d :: d in olist && IsType(d, "DIRECTORY") ==> d in Contents(fullpath, olist, cfg).value.0
  {
    SelectComplete(olist, Some("DIRECTORY"), None, cfg.lib);
  }

  /** The first step of `_scan_dir`: a skipped path, one below the level or
      one that is not a directory yields nothing (the first ensures of
      `ScanWalk`); an empty listing yields the directory alone, with no
      recursion; a non-empty listing yields first the triple of everything
      the object type and the filter ask for. */
  lemma WalkShape(cfg: Scan, fullpath: string, info: Record, depth: int)
    ensures "type" in info && info["type"] != Str("DIRECTORY") ==>
      ScanWalk(cfg, fullpath, info, depth) == Walk([], None)
    ensures fullpath !in cfg.skip && depth <= cfg.level && "type" !in info ==>
      ScanWalk(cfg, fullpath, info, depth) == Walk([], Some(KeyError("type")))
    ensures fullpath !in cfg.skip && depth <= cfg.level && IsType(info, "DIRECTORY") && cfg.list(fullpath).Err? ==>
      ScanWalk(cfg, fullpath, info, depth) == Walk([], Some(cfg.list(fullpath).error))
    ensures fullpath !in cfg.skip && depth <= cfg.level && IsType(info, "DIRECTORY") && cfg.list(fullpath) == Ok([]) ==>
      ScanWalk(cfg, fullpath, info, depth) == Walk([Triple(fullpath, [], [])], None)
    ensures var w := ScanWalk(cfg, fullpath, info, depth);
      fullpath !in cfg.skip && depth <= cfg.level && IsType(info, "DIRECTORY") &&
      cfg.list(fullpath).Ok? && cfg.list(fullpath).value != [] && w.out != [] ==>
        Sound(w.out[0], cfg) && Complete(w.out[0], cfg.list(fullpath).value, cfg)
  {
    var w := ScanWalk(cfg, fullpath, info, depth);
    if fullpath !in cfg.skip && depth <= cfg.level && IsType(info, "DIRECTORY") &&
       cfg.list(fullpath).Ok? && cfg.list(fullpath).value != [] && w.out != [] {
      var olist := cfg.list(fullpath).value;
      ContentsSound(fullpath, olist, cfg);
    }
  }

  /** In the walk `scan_dir` starts, a directory whose listing is empty, or
      cannot be fetched while errors are ignored, yields itself alone; one
      that cannot be fetched otherwise ends the walk with an IOError. */
  lemma WalkEmptyDirectory(c: Client, otype: string, level: int, ignoreError: bool,
                           filter: Option<seq<Token>>, skip: set<string>,
                           fullpath: string, info: Record, depth: int)
    requires fullpath !in skip && depth <= level && IsType(info, "DIRECTORY")
    ensures var w := ScanWalk(Walker(c, otype, level, ignoreError, filter, skip), fullpath, info, depth);
      && (Fetch(c, fullpath) == Some([]) ==> w == Walk([Triple(fullpath, [], [])], None))
      && (Fetch(c, fullpath).None? && ignoreError ==> w == Walk([Triple(fullpath, [], [])], None))
      && (Fetch(c, fullpath).None? && !ignoreError ==> w == Walk([], Some(IOError(fullpath))))
  {
    var cfg := Walker(c, otype, level, ignoreError, filter, skip);
    var l := Listing(c, fullpath, ignoreError);
    assert cfg.list(fullpath) == l;
    WalkShape(cfg, fullpath, info, depth);
  }

  /** Every triple of a walk lies under its starting path and is sound. */
  lemma {:induction false} WalkSound(cfg: Scan, fullpath: string, info: Record, depth: int)
    ensures forall t :: t in ScanWalk(cfg, fullpath, info, depth).out ==>
      fullpath <= t.root && Sound(t, cfg)
    decreases Budget(depth, cfg.level), 0, 0
  {
    if fullpath !in cfg.skip && depth <= cfg.level && "type" in info && info["type"] == Str("DIRECTORY") {
      var l := cfg.list(fullpath);
      if l.Ok? && l.value != [] && Contents(fullpath, l.value, cfg).Ok? {
        var (dlist, top) := Contents(fullpath, l.value, cfg).value;
        ContentsSound(fullpath, l.value, cfg);
        ChildrenSound(cfg, Base(fullpath), dlist, depth + 1);
        forall t | t in ScanChildren(cfg, Base(fullpath), dlist, depth + 1).out
          ensures fullpath <= t.root
        {
          PrefixTransitive(fullpath, Base(fullpath) + "/", t.root);
        }
      }
    }
  }

  /** Every triple of the children's walks lies under `base + "/"`. */
  lemma {:induction false} ChildrenSound(cfg: Scan, base: string, ds: seq<Record>, depth: int)
    ensures forall t :: t in ScanChildren(cfg, base, ds, depth).out ==>
      base + "/" <= t.root && Sound(t, cfg)
    decreases Budget(depth, cfg.level), 1, |ds|
  {
    if ds != [] && "pathSuffix" in ds[0] && ds[0]["pathSuffix"].Str? {
      var child := base + "/" + ds[0]["pathSuffix"].s;
      WalkSound(cfg, child, ds[0], depth);
      ChildrenSound(cfg, base, ds[1..], depth);
      forall t | t in ScanWalk(cfg, child, ds[0], depth).out
        ensures base + "/" <= t.root
      {
        PrefixTransitive(base + "/", child, t.root);
      }
    }
  }

  lemma PrefixTransitive(a: string, b: string, c: string)
    requires a <= b && b <= c
    ensures a <= c
  {
    assert c[..|b|] == b;
    assert c[..|a|] == c[..|b|][..|a|];
  }

  /** Below the last level nothing is yielded. */
  lemma {:induction false} ChildrenBeyondLevel(cfg: Scan, base: string, ds: seq<Record>, depth: int)
    requires depth > cfg.level
    ensures ScanChildren(cfg, base, ds, depth).out == []
    decreases |ds|
  {
    if ds != [] && "pathSuffix" in ds[0] && ds[0]["pathSuffix"].Str? {
      ChildrenBeyondLevel(cfg, base, ds[1..], depth);
    }
  }

  /** A walk that ends without an exception has walked every child: the
      child's own walk is part of it and ended without an exception too. */
  lemma {:induction false} ChildrenContain(cfg: Scan, base: string, ds: seq<Record>, depth: int, k: nat)
    requires k < |ds| && ScanChildren(cfg, base, ds, depth).failure.None?
    ensures "pathSuffix" in ds[k] && ds[k]["pathSuffix"].Str?
    ensures var w := ScanWalk(cfg, base + "/" + ds[k]["pathSuffix"].s, ds[k], depth);
      w.failure.None? && forall t :: t in w.out ==> t in ScanChildren(cfg, base, ds, depth).out
    decreases k
  {
    if k > 0 {
      ChildrenContain(cfg, base, ds[1..], depth, k - 1);
      assert ds[1..][k - 1] == ds[k];
    }
  }

  /** A directory that is walked, not skipped and within the level yields
      its own triple first. */
  lemma RootTripleFirst(cfg: Scan, fullpath: string, info: Record, depth: int)
    requires fullpath !in cfg.skip && depth <= cfg.level && IsType(info, "DIRECTORY")
    requires ScanWalk(cfg, fullpath, info, depth).failure.None?
    ensures ScanWalk(cfg, fullpath, info, depth).out != []
    ensures ScanWalk(cfg, fullpath, info, depth).out[0].root == fullpath
  {
  }

  /** The filter never prunes the descent: every child directory of a walked
      directory is itself walked, whether the filter keeps it or not, unless
      it is skipped or beyond the level. */
  lemma DescentIgnoresFilter(cfg: Scan, fullpath: string, info: Record, depth: int, d: Record)
    requires fullpath !in cfg.skip && depth + 1 <= cfg.level && IsType(info, "DIRECTORY")
    requires ScanWalk(cfg, fullpath, info, depth).failure.None?
    requires cfg.list(fullpath).Ok? && d in cfg.list(fullpath).value && IsType(d, "DIRECTORY")
    ensures "pathSuffix" in d && d["pathSuffix"].Str?
    ensures Base(fullpath) + "/" + d["pathSuffix"].s !in cfg.skip ==>
      exists t :: t in ScanWalk(cfg, fullpath, info, depth).out && t.root == Base(fullpath) + "/" + d["pathSuffix"].s
  {
    var olist := cfg.list(fullpath).value;
    var base := Base(fullpath);
    var dlist, top := WalkDescends(cfg, fullpath, info, depth);
    DirectoriesDescended(fullpath, olist, cfg);
    var k :| 0 <= k < |dlist| && dlist[k] == d;
    ChildRootYielded(cfg, base, dlist, depth + 1, k);
  }

  /** A child directory that is within the level and not skipped is the root
      of a triple of the children's walk, when that walk ends without an
      exception. */
  lemma ChildRootYielded(cfg: Scan, base: string, ds: seq<Record>, depth: int, k: nat)
    requires k < |ds| && depth <= cfg.level && IsType(ds[k], "DIRECTORY")
    requires ScanChildren(cfg, base, ds, depth).failure.None?
    ensures "pathSuffix" in ds[k] && ds[k]["pathSuffix"].Str?
    ensures base + "/" + ds[k]["pathSuffix"].s !in cfg.skip ==>
      exists t :: t in ScanChildren(cfg, base, ds, depth).out && t.root == base + "/" + ds[k]["pathSuffix"].s
  {
    ChildrenContain(cfg, base, ds, depth, k);
    var child := base + "/" + ds[k]["pathSuffix"].s;
    if child !in cfg.skip {
      RootTripleFirst(cfg, child, ds[k], depth);
      var t := ScanWalk(cfg, child, ds[k], depth).out[0];
      assert t in ScanChildren(cfg, base, ds, depth).out;
    }
  }

  /** A walked directory whose walk ends without an exception has a
      non-empty listing or none at all; with a non-empty one, the walk is its
      triple followed by the walks of its child directories. */
  lemma WalkDescends(cfg: Scan, fullpath: string, info: Record, depth: int) returns (dlist: seq<Record>, top: Triple)
    requires fullpath !in cfg.skip && depth <= cfg.level && IsType(info, "DIRECTORY")
    requires ScanWalk(cfg, fullpath, info, depth).failure.None?
    requires cfg.list(fullpath).Ok? && cfg.list(fullpath).value != []
    ensures Contents(fullpath, cfg.list(fullpath).value, cfg) == Ok((dlist, top))
    ensures ScanWalk(cfg, fullpath, info, depth) == Then(Walk([top], None), ScanChildren(cfg, Base(fullpath), dlist, depth + 1))
  {
    var olist := cfg.list(fullpath).value;
    dlist, top := Contents(fullpath, olist, cfg).value.0, Contents(fullpath, olist, cfg).value.1;
  }

  /** `scan_dir`'s checks: a missing path, a path whose status cannot be
      read and an invalid skip list fail at once; a None skip list gives a
      generator that fails on its first step; otherwise every yielded triple
      lies under the path and is sound. */
  lemma ScanDirSound(c: Client, path: string, level: Option<int>, pattern: string, patternType: string,
                     otype: string, ignoreError: bool, skip: SkipDirs, exprList: SearchExpressionList?)
    ensures path == "" ==>
      ScanDir(c, path, level, pattern, patternType, otype, ignoreError, skip, exprList)
        == Err(MissingArgumentError("Path not provided"))
    ensures path != "" && AbsPath(path) !in c.statuses ==>
      ScanDir(c, path, level, pattern, patternType, otype, ignoreError, skip, exprList) == Err(IOError(path))
    ensures path != "" && AbsPath(path) in c.statuses && skip.Other? && skip.items != [] ==>
      ScanDir(c, path, level, pattern, patternType, otype, ignoreError, skip, exprList)
        == Err(IllegalArgumentError("Skip dir list is not valid"))
    ensures var r := ScanDir(c, path, level, pattern, patternType, otype, ignoreError, skip, exprList);
      r.Ok? && skip.NoneGiven? ==> r.value == Walk([], Some(TypeError))
    ensures var r := ScanDir(c, path, level, pattern, patternType, otype, ignoreError, skip, exprList);
      r.Ok? && !skip.NoneGiven? ==>
        var cfg := Walker(c, otype, EffectiveLevel(level), ignoreError,
                          ScanFilter(pattern, patternType, TokensOf(exprList)).value,
                          NormalizeSkip(skip).value.value);
        forall t :: t in r.value.out ==> path <= t.root && Sound(t, cfg)
  {
    var r := ScanDir(c, path, level, pattern, patternType, otype, ignoreError, skip, exprList);
    if r.Ok? && !skip.NoneGiven? {
      var f := ScanFilter(pattern, patternType, TokensOf(exprList)).value;
      var cfg := Walker(c, otype, EffectiveLevel(level), ignoreError, f, NormalizeSkip(skip).value.value);
      WalkSound(cfg, path, c.statuses[AbsPath(path)], 1);
    }
  }

  /** A level of one yields at most the triple of the path itself. */
  lemma ScanLevelOne(c: Client, path: string, pattern: string, patternType: string,
                     otype: string, ignoreError: bool, skip: SkipDirs, exprList: SearchExpressionList?)
    ensures var r := ScanDir(c, path, Some(1), pattern, patternType, otype, ignoreError, skip, exprList);
      r.Ok? ==> |r.value.out| <= 1
  {
    var p := Prepare(c, path, 1, pattern, patternType, otype, ignoreError, skip, TokensOf(exprList));
    if p.Ok? && p.value.Some? {
      var (cfg, info) := p.value.value;
      assert cfg.level == 1;
      var l := cfg.list(path);
      if path !in cfg.skip && "type" in info && info["type"] == Str("DIRECTORY") && l.Ok? && l.value != []
         && Contents(path, l.value, cfg).Ok? {
        var (dlist, top) := Contents(path, l.value, cfg).value;
        ChildrenBeyondLevel(cfg, Base(path), dlist, 2);
      }
    }
  }

  /** A missing or non-positive level is the same as 500. */
  lemma ScanDefaultLevel(c: Client, path: string, pattern: string, patternType: string,
                         otype: string, ignoreError: bool, skip: SkipDirs, exprList: SearchExpressionList?, n: int)
    requires n < 1
    ensures ScanDir(c, path, Some(n), pattern, patternType, otype, ignoreError, skip, exprList)
         == ScanDir(c, path, Some(500), pattern, patternType, otype, ignoreError, skip, exprList)
    ensures ScanDir(c, path, None, pattern, patternType, otype, ignoreError, skip, exprList)
         == ScanDir(c, path, Some(500), pattern, patternType, otype, ignoreError, skip, exprList)
  {
    assert EffectiveLevel(Some(n)) == EffectiveLevel(None) == EffectiveLevel(Some(500));
  }

  /** No path in a normalised skip set ends in "/". */
  lemma SkipSetStripped(skip: SkipDirs)
    requires NormalizeSkip(skip).Ok? && NormalizeSkip(skip).value.Some?
    ensures forall p :: p in NormalizeSkip(skip).value.value ==> p == [] || p[|p| - 1] != '/'
  {
  }

  /** Stripping a run of slashes from a path that does not end in one gives
      the path back. */
  lemma {:induction false} RStripSlashes(p: string, k: nat)
    requires p == [] || p[|p| - 1] != '/'
    ensures RStrip(p + seq(k, _ => '/')) == p
    decreases k
  {
    var s := p + seq(k, _ => '/');
    if k == 0 {
      assert s == p;
    } else {
      assert s[|s| - 1] == '/';
      assert s[..|s| - 1] == p + seq(k - 1, _ => '/');
      RStripSlashes(p, k - 1);
    }
  }

  /** A skip path written with trailing slashes skips the same directory as
      without them; the root written as "/" becomes the empty path, which no
      walked directory has. */
  lemma SkipTrailingSlash(p: string, k: nat)
    requires p != [] && p[|p| - 1] != '/'
    ensures NormalizeSkip(Text(p + seq(k, _ => '/'))) == Ok(Some({p}))
    ensures NormalizeSkip(Paths([p + seq(k, _ => '/')])) == Ok(Some({p}))
    ensures NormalizeSkip(Text("/")) == Ok(Some({""}))
  {
    RStripSlashes(p, k);
    RStripSlashes("", 1);
    assert seq(1, _ => '/') == "/";
    var q := p + seq(k, _ => '/');
    var stripped := set x | x in [q] :: RStrip(x);
    assert q in [q];
    assert p in stripped;
    assert stripped == {p};
  }
}
