# WebHDFS search and directory scanning, in Dafny

This project models the core of a Python 2 WebHDFS client library. The core has
four parts:

- **Search expressions** (`core/search.py`). Read-only registries map semantic
  keys to wire field names and operator names to predicates. A
  `SearchExpression` compares one field of a metadata record with a value. A
  `SearchExpressionList` holds expressions and the logical words `and`/`or`
  in postfix order and evaluates them with a stack.
- **Helpers** (`core/util.py`): `merge_dict`, `convert_to_dict`, the
  defaulting of `regex_search`/`glob_search`, and the read-only registry
  metaclass.
- **The directory lister** (`core/webhdfs.py`). It covers the URL builders,
  `_list_attribute` and `_build_extended_info`. It also covers
  `_list_dir_info`, which lists one directory level filtered by object type
  and by an expression list and optionally extends each entry with statistics.
  `list_dir` and `long_list_dir` are built on it.
- **The recursive scanner** (`scan_dir`/`_scan_dir` in `core/webhdfs.py`). It
  walks a tree and yields `(root, dirs, files)` triples. It stops at a depth
  limit and at exact skip paths, and it applies the filter to what it reports
  but not to where it descends.

Modules, one per file:

| file | module | contents |
|---|---|---|
| `common.dfy` | `Common` | `Option`, `Result` and the exceptions the core raises (`Error`). |
| `records.dfy` | `Records` | A metadata record is a `map<string, Value>`, where a value is an `Int` or a `Str`. It also holds Python 2 truthiness and the Python 2 ordering of mixed values (`PyLess`). |
| `util.dfy` | `Util` | `core/util.py`. The regex and fnmatch engines are the two function fields of `Library`. |
| `search.dfy` | `Search` | `core/search.py`. `SearchExpression` is a datatype. `SearchExpressionList` is a class whose `tokens` field the methods update, and its `Match` loop is proved equal to the function `Evaluate`. |
| `whdfs_search.dfy` | `WhdfsSearch` | The WebHDFS registries and the WebHDFS expression constructor. |
| `webhdfs.dfy` | `Webhdfs` | URLs, attribute projection, extended statistics and the lister. `ListDirInfo` is the loop method that mirrors `_list_dir_info`, proved equal to the function `DirInfo`. |
| `scan.dfy` | `WebhdfsScan` | `scan_dir` and `_scan_dir`. The lazy generator is a finite `Walk`: the triples it yields, then the exception that ends it, if any. |

The remote file system is a value (`Client`). It holds the answers of the
server:

- LISTSTATUS answers, keyed by absolute path;
- GETCONTENTSUMMARY answers, keyed the same way;
- GETFILESTATUS answers, keyed the same way.

A path missing from a map is a request that failed. Python exceptions are the
`Err` case of `Result`.

The model follows the code where it differs from its doc strings, and it keeps
some behaviour of the code that is easy to miss:

- The docstring of `_list_dir_info` (core/webhdfs.py:543-545) says type "file"
  lists files and symlinks. The code keeps type `FILE` only, and
  `FileListingExcludesLinks` states this.
- The content-summary fallback to a zeroed block exists only in the extended
  "all" listing. In the typed "dir" listing, a missing summary leaves the
  record unchanged (`TypedDirNoFallback`). A failed summary request with
  `ignore_error` false ends the listing with an IOError (`ExtendedDirEntry`).
- The final check of `SearchExpressionList.match`,
  `len(se_stack) != 1 and not isinstance(se_stack[0], bool)`, can never
  reject a stack of booleans. A list that leaves several values returns the
  bottom one (`LeftoverReturnsBottom`), and an empty list fails with
  IndexError (`EmptyListFails`). The model keeps this behaviour.
- `skip_dirs=None` is accepted by `scan_dir`. The walk then fails with a
  TypeError on its first membership test, before it yields anything
  (`ScanDirSound`).

## Model

| member | source | states |
|---|---|---|
| Records.PyLessStrictTotalOrder | core/webhdfs.py:49-53 | The Python 2 ordering behind `>`, `<`, `>=`, `<=` on field values is irreflexive, transitive and total: every int sorts before every string, and strings compare lexicographically. |
| Util.MergeDict | core/util.py:49-52 | The merged keys are the union of both key sets; on a shared key the second dictionary's value wins; other keys keep the first dictionary's value. |
| Util.MergeWithEmpty | core/util.py:49-52 | Merging with an empty dictionary on either side changes nothing. |
| Util.MergeIdempotent | core/util.py:49-52 | Merging a dictionary with itself gives it back. |
| Util.MergeAssociative | core/util.py:49-52 | Merging is associative. |
| Util.ConvertToDict | core/util.py:9-12 | A missing or empty argument list gives None, and only then. |
| Util.PresentPairsKeys | core/util.py:11 | The keys of the converted dictionary are exactly those paired with a non-None value somewhere. |
| Util.PresentPairsLast | core/util.py:11 | Each key of the converted dictionary maps to its last non-None value. |
| Util.RegexSearch | core/util.py:20-22 | A falsy pattern searches with ".*", a string pattern with itself. A non-string text or a truthy non-string pattern is a TypeError. |
| Util.GlobSearch | core/util.py:25-27 | A falsy pattern matches with "*", a string pattern with itself. A non-string text or a truthy non-string pattern is a TypeError. |
| Util.EmptyPatternIsDefault | core/util.py:20-27 | An empty pattern behaves exactly like the explicit match-everything pattern of each engine. |
| Util.SetClassAttribute | core/util.py:30-32 | Assigning any attribute of a registry class fails with AttributeError. |
| Search.GetValue | core/search.py:29-32 | Looking up a registry gives the stored value for a present key and KeyError(key) otherwise. |
| Search.SearchExpression.Match | core/search.py:119-128 | A record without the expression's field is a KeyError. `>`, `<` and `=` follow the Python 2 ordering. `regex` and `glob` defer to the engines, and a non-string field is a TypeError. No other error occurs. |
| Search.Build | core/search.py:99-117 | An unknown key is ValueError("Invalid key provided"), checked before the operator. An unknown operator is ValueError("Invalid operation"). Otherwise the expression holds the key's wire field, the operator's predicate and the value. |
| Search.BaseRegistriesRejectAll | core/search.py:17-49 | With the empty base registries, no expression can be built. |
| Search.MatchReadsOnlyItsField | core/search.py:119-128 | Two records that agree on the expression's field get the same verdict. |
| Search.ComparisonsConsistent | core/webhdfs.py:49-53 | `>=` is `>` or `=`, `<=` is `<` or `=`, and exactly one of `<`, `=`, `>` holds between two present values. |
| Search.SearchExpressionList.constructor | core/search.py:139-148 | A new list holds the given expression alone, or nothing when none is given. |
| Search.SearchExpressionList.Add | core/search.py:150-156 | An expression or `and`/`or` is appended at the end. Any other word is ValueError(word) and leaves the list unchanged. |
| Search.SearchExpressionList.Match | core/search.py:169-209 | The stack loop returns exactly the postfix evaluation `Evaluate` of the list's tokens, and a list built by the constructor and `add` never raises AttributeError. |
| Search.RunAppend | core/search.py:189-203 | Evaluating a concatenation is evaluating the first part, then the second part on the resulting stack. |
| Search.RunPostfix | core/search.py:189-203 | A condition tree's postfix form pushes exactly its truth value, or fails with the first error. |
| Search.RunPostfixPair | core/search.py:189-203 | Two subtrees followed by `and`/`or` push the conjunction or disjunction of their values. |
| Search.RunOperator | core/search.py:190-198 | One logical word replaces the two top values of the stack with their AND or OR. |
| Search.Step | core/search.py:189-203 | An expression pushes exactly one value on the stack. A logical word replaces the top two values with one; on fewer than two it raises ValueError("Search Expression incorrect"). Only a word that is not an operator raises AttributeError. |
| Search.Run | core/search.py:187-203 | Running no token leaves the stack. A successful run changes the stack height by the number of expressions minus the number of operators. A list of valid tokens never raises AttributeError. |
| Search.Evaluate | core/search.py:169-209 | An empty list is IndexError. A successful evaluation has more expressions than operators. A list of valid tokens never raises AttributeError. |
| Search.PostfixCorrect | core/search.py:169-209 | For every condition tree, evaluating its postfix form equals evaluating the tree. |
| Search.AndOrOfTwo | core/search.py:190-198 | `[e1, e2, and]` and `[e1, e2, or]` give the AND or the OR of the two matches. |
| Search.SingleExpression | core/search.py:169-209 | A one-expression list gives that expression's match. |
| Search.UnderflowFails | core/search.py:191-200 | A logical word right after a single expression is ValueError("Search Expression incorrect"), unless evaluating that expression already failed. |
| Search.LeadingOperatorFails | core/search.py:191-200 | A list that starts with a logical word is ValueError("Search Expression incorrect"). |
| Search.UnderflowAnywhere | core/search.py:189-200 | At any position, a logical word that meets fewer than two values on the stack makes the whole list ValueError("Search Expression incorrect"), whatever follows it. |
| Search.EmptyListFails | core/search.py:205-209 | An empty list fails with IndexError. |
| Search.LeftoverReturnsBottom | core/search.py:205-209 | Two conditions written one after the other with no joining operator are not rejected: the first condition's value is returned. |
| WhdfsSearch.KeysRoundTrip | core/webhdfs.py:21-42 | The WebHDFS key registry holds exactly the eleven semantic keys, and each wire field maps back to its key. |
| WhdfsSearch.KeysAreInjective | core/webhdfs.py:32-42 | No two keys share a wire field: equal fields come from equal keys. |
| WhdfsSearch.OperatorNames | core/webhdfs.py:49-55 | The operator registry holds exactly `>`, `<`, `>=`, `<=`, `=`, `regex` and `glob`. |
| WhdfsSearch.Expression | core/webhdfs.py:62-66 | A WebHDFS expression exists exactly when both the key and the operator are registered. Its field is the key's wire name. |
| WhdfsSearch.NamePattern | core/webhdfs.py:651-656 | The name-pattern expression reads `pathSuffix`. It is a glob or regex match for those types and ValueError("Invalid operation") for an unknown type. |
| Webhdfs.AbsPath | core/webhdfs.py:161-162 | The path with a leading "/" added only when it lacks one: a path that starts with "/" is returned unchanged, any other path gets exactly one "/" in front. |
| Webhdfs.PathUrl | core/webhdfs.py:149-163 | The URL is the joined base and extension followed by the absolute form of the path, and nothing else. |
| Webhdfs.ContentSummary | core/webhdfs.py:369-393 | An empty path is MissingArgumentError. Otherwise the stored summary of the absolute path; a missing one is the empty record when errors are ignored and an error otherwise. It fails exactly in those two cases. |
| Webhdfs.PathStatus | core/webhdfs.py:341-367 | The same for the status record: MissingArgumentError for an empty path, the stored status, the empty record when a missing one is ignored, an error otherwise. |
| Webhdfs.Fetch | core/webhdfs.py:552-562 | The LISTSTATUS answer exists exactly when the absolute path has a stored listing, and it is that listing. |
| Webhdfs.PathUrlNormalises | core/webhdfs.py:161-163 | "x/y" and "/x/y" give the same URL. |
| Webhdfs.OpUrl | core/webhdfs.py:165-178 | The URL, then "?user.name=", the user, "&op=" and the operation, in that order. |
| Webhdfs.OpUrlRoundTrip | core/webhdfs.py:178 | For a user without "&", the URL, the user and the operation can be read back from the operation URL. |
| Webhdfs.ListAttribute | core/webhdfs.py:180-187 | With no key or a key that is "all" in any case, the whole record. With a registered key, that wire field. An unregistered key or a missing field is a KeyError. |
| Webhdfs.ExtendedInfo | core/webhdfs.py:529-536 | The extended block has exactly the five content-summary fields, holding the five arguments. |
| Webhdfs.ZeroedInfoDefaults | core/webhdfs.py:529-530 | The default block is zero directories, zero files, quotas -1 and zero space consumed. |
| Webhdfs.FullPath | core/webhdfs.py:572-575 | The child path exists exactly when the child has a string `pathSuffix` (KeyError when it has none). It ends with the name; under "/" it is the name alone, elsewhere it starts with the parent and "/". |
| Webhdfs.FileStats | core/webhdfs.py:583-587 | The statistics exist exactly when length and replication are present integers (KeyError naming the first missing one). They have exactly the five extended fields, no directory, one file and raw size length × replication. |
| Webhdfs.Extend | core/webhdfs.py:568-618 | An extended record keeps every field of the child. Extending needs the child's `pathSuffix`, and under "all" its `type`. |
| Webhdfs.Project | core/webhdfs.py:590 | A projected entry exists only when extending succeeded. With key "all" it is the whole extended record. |
| Webhdfs.Entry | core/webhdfs.py:565-626 | With key "all" a child's entry is a whole record. In an extended "all" listing the entry keeps `type` and `pathSuffix`. |
| Webhdfs.CollectStep | core/webhdfs.py:566-591 | Listing one more child extends the listing of the children before it by that child's entry, or fails with the entry's error. |
| Webhdfs.Collect | core/webhdfs.py:565-626 | A listing is no longer than the children. With key "all" every entry is a whole record. An extended "all" listing keeps `type` and `pathSuffix` in every entry. |
| Webhdfs.DirInfo | core/webhdfs.py:538-629 | An unlistable path is None when errors are ignored and IOError(path) otherwise. A listing is no longer than the children, and whole records keep their fields as in Collect. |
| Webhdfs.CollectPrefixError | core/webhdfs.py:566-591 | When the listing of a prefix of the children fails, the whole listing fails with the same error. |
| Webhdfs.ListDirInfo | core/webhdfs.py:538-629 | The method over an expression-list object returns exactly `DirInfo` with that list's tokens. |
| Webhdfs.ExtendedListing | core/webhdfs.py:566-620 | The loop that builds an extended listing returns exactly `Collect` of the children. |
| Webhdfs.ExtendedAllEntry | core/webhdfs.py:568-590 | One iteration of the extended "all" loop gives exactly that child's `Entry`. |
| Webhdfs.ExtendedTypedEntry | core/webhdfs.py:601-619 | One iteration of the typed extended loop gives exactly that child's `Entry`. |
| Webhdfs.Select | core/webhdfs.py:622-626 | Every selected record is a child with the requested type that the filter keeps, and there are no more than the children. |
| Webhdfs.SelectComplete | core/webhdfs.py:622-626 | Every child with the requested type that the filter keeps is selected. |
| Webhdfs.SelectInOrder | core/webhdfs.py:622-626 | The selection keeps the children's order: it is the children at strictly increasing positions. |
| Webhdfs.SelectPartition | core/webhdfs.py:593-626 | When all children are files, directories or links, the three typed selections partition the "all" selection as a multiset. |
| Webhdfs.PlainEntry | core/webhdfs.py:593-626 | A child of a plain listing of whole records takes the step `Select` takes for it: type test, then filter. |
| Webhdfs.PlainListing | core/webhdfs.py:593-626 | A non-extended listing of whole records is the type-and-filter selection of the children, and it fails exactly when the selection does, with the same error. |
| Webhdfs.CollectOrigin | core/webhdfs.py:565-626 | Every entry of a listing comes from one child record. |
| Webhdfs.GlobNameEntry | core/webhdfs.py:651-660 | An entry of a name listing under a glob filter is a name that the pattern matches. |
| Webhdfs.ListDirNamesMatch | core/webhdfs.py:631-660 | `list_dir` refuses an empty path with MissingArgumentError. With a glob pattern, every name it returns matches the pattern (soundness; completeness is `ListDirNamesComplete`). |
| Webhdfs.ExtendedFileEntry | core/webhdfs.py:582-587 | An extended file or link gets one file, no directory, quotas -1 and raw size length × replication. Its other fields are unchanged. |
| Webhdfs.ExtendedDirEntry | core/webhdfs.py:577-581 | In the extended "all" listing a directory is merged with its content summary. A summary that is present but empty, or missing while errors are ignored, gives the zeroed block. A missing summary otherwise is IOError of the child path. |
| Webhdfs.TypedFileExtension | core/webhdfs.py:611-615 | In the typed "file" extension a child gains no directory, one file, quotas -1 and raw size length × replication. A missing length, then a missing replication, is a KeyError. |
| Webhdfs.TypedDirExtension | core/webhdfs.py:608-610 | In the typed "dir" extension a child is merged with its summary as fetched, with no zeroed fallback. An empty child path is MissingArgumentError, and a missing summary is IOError unless errors are ignored. |
| Webhdfs.TypedLinkExtension | core/webhdfs.py:616-617 | In the typed "symlink" extension a child is merged with the zeroed block. |
| Webhdfs.TypedEntry | core/webhdfs.py:596-619 | In a typed listing, a child of the requested type that the filter keeps is projected after its extension (when the listing is extended). |
| Webhdfs.DirExtendWithoutSummary | core/webhdfs.py:608-610 | The typed "dir" extension of a directory whose summary is missing, under ignored errors, leaves the record unchanged. |
| Webhdfs.ProjectWhole | core/webhdfs.py:180-187 | Projecting a record on no key or on "all" keeps the whole record. |
| Webhdfs.EntryKept | core/webhdfs.py:566-626 | An entry is made only for a child the filter keeps, and in a plain listing it is the child's own projection. |
| Webhdfs.Projection | core/webhdfs.py:590-626 | The entry of a kept child in a plain listing is the whole record for key "all" and the registered field otherwise. |
| Webhdfs.Projections | core/webhdfs.py:566-626 | Projecting kept children gives one entry per child. |
| Webhdfs.ProjectionsSnoc | core/webhdfs.py:566-626 | Projecting one more child appends its entry, or fails with its error. |
| Webhdfs.ProjectionsContain | core/webhdfs.py:566-626 | Every kept child has its projection among the entries. |
| Webhdfs.EntryStep | core/webhdfs.py:566-626 | For a known object type, one child takes the step `Select` takes for it (type test, then filter), and a kept child gets its projection, extended first when asked. |
| Webhdfs.ListingIsSelection | core/webhdfs.py:538-629 | For a known object type, in any mode and for any key, a listing succeeds exactly when the type-and-filter selection of the children and all their projections succeed, and it is then exactly those projections in order. |
| Webhdfs.UnknownTypeFails | core/webhdfs.py:596-626 | A listing of an object type other than "all", "file", "dir" and "symlink" fails on any non-empty directory. |
| Webhdfs.DirInfoListing | core/webhdfs.py:555-629 | For a listable path the result succeeds exactly when the listing of its children does, and it is that listing. |
| Webhdfs.ListingComplete | core/webhdfs.py:593-626 | A successful listing of a known object type holds the entry of every child of that type which the filter keeps. |
| Webhdfs.ListDirGlobQuery | core/webhdfs.py:651-660 | `list_dir` with a non-empty glob pattern lists by the name key with the one `pathSuffix` glob expression as filter. |
| Webhdfs.GlobNameKept | core/webhdfs.py:651-660 | A child whose name the glob pattern matches passes that filter, and its entry is its name. |
| Webhdfs.ListDirNamesComplete | core/webhdfs.py:631-660 | A successful `list_dir` with a glob pattern lists the name of every child of the requested type whose name the pattern matches. |
| Webhdfs.TypedDirNoFallback | core/webhdfs.py:608-610 | In the typed "dir" extended listing, a directory whose summary is missing keeps only its own fields. |
| Webhdfs.FileListingExcludesLinks | core/webhdfs.py:602-603 | A listing of type "file" never holds a symbolic link. |
| Webhdfs.PatternFilter | core/webhdfs.py:651-656 | No pattern means no filter. A pattern is the one `pathSuffix` expression of its type, and an unknown type is an error. |
| Webhdfs.ListDir | core/webhdfs.py:631-660 | An empty path is MissingArgumentError. Without a pattern it is the unfiltered name listing. An unknown pattern type is an error, and an unlistable path that does not fail gives None. |
| Webhdfs.LongListDir | core/webhdfs.py:662-702 | Without a pattern it is the unfiltered "all"-key listing, and every entry is a whole record. |
| Webhdfs.PatternList | core/webhdfs.py:691-697 | The list object built from a pattern holds exactly the tokens of `PatternFilter`, and it fails in the same cases. |
| Webhdfs.ListDirectory | core/webhdfs.py:631-660 | `list_dir` returns exactly `ListDir`. |
| Webhdfs.LongListDirectory | core/webhdfs.py:662-702 | `long_list_dir` returns exactly `LongListDir`. |
| WebhdfsScan.Then | core/webhdfs.py:795-804 | Running one walk after another yields both outputs in order. A failure in the first walk stops everything after it. |
| WebhdfsScan.Base | core/webhdfs.py:793-794 | The prefix for children is exactly "" for the root "/" and the path itself for any other path, so every child path starts with the parent and "/". |
| WebhdfsScan.WalkQueryIsLongListing | core/webhdfs.py:764-766 | The listing the walk asks for is `long_list_dir` with type "all", extended records and no pattern, whatever the pattern type. |
| WebhdfsScan.WholeRecords | core/webhdfs.py:764-766 | The records the walk reads are, position by position, the whole records of that listing. |
| WebhdfsScan.Listing | core/webhdfs.py:764-768 | An unlistable directory is an empty listing when errors are ignored and IOError otherwise; an empty directory is an empty listing; the listing is no longer than the children. |
| WebhdfsScan.ListingRecords | core/webhdfs.py:764-766 | Each record of the extended "all" listing the walk asks for has a `type` and a `pathSuffix`. |
| WebhdfsScan.Contents | core/webhdfs.py:770-790 | The triple is rooted at the directory. The directories descended into are directory children, and the reported files and directories are children. |
| WebhdfsScan.ScanWalk | core/webhdfs.py:749-804 | A skipped path or one deeper than the level yields nothing and raises nothing. The first triple of a walk is its start path. |
| WebhdfsScan.ScanChildren | core/webhdfs.py:793-804 | Walking the children ends without an exception only when every child directory has a string name. |
| WebhdfsScan.ScanDir | core/webhdfs.py:806-880 | An empty path is MissingArgumentError. A walk exists only for a path with a known status, and its first triple is the path. |
| WebhdfsScan.RStrip | core/webhdfs.py:861-863 | Stripping trailing slashes gives a prefix that does not end in "/", and only slashes were removed. |
| WebhdfsScan.NormalizeSkip | core/webhdfs.py:859-865 | None is kept as "no set". An empty string gives the empty set and any other string the one-element set of that string with trailing "/" stripped. A list gives exactly the set of its items with trailing "/" stripped. An empty collection of another kind gives the empty set; a non-empty one is IllegalArgumentError. |
| WebhdfsScan.SkipSetStripped | core/webhdfs.py:859-863 | Every entry of a normalised skip set has no trailing "/". |
| WebhdfsScan.SkipTrailingSlash | core/webhdfs.py:860-863 | A skip path, as a string or in a list, written with any number of trailing slashes normalises to the path without them. The root "/" normalises to "", which no walked directory has. |
| WebhdfsScan.EffectiveLevel | core/webhdfs.py:846-847 | A missing level or a level below one becomes exactly 500; any other level is kept. The result is always at least one. |
| WebhdfsScan.ScanFilter | core/webhdfs.py:867-873 | A given expression list wins over a pattern. A pattern applies only when no list is given. |
| WebhdfsScan.Walker | core/webhdfs.py:875-880 | The walk gets the object type, the level, the filter, the skip set and the matching engines that `scan_dir` passes on. |
| WebhdfsScan.Prepare | core/webhdfs.py:848-873 | Preparation succeeds only for a non-empty path with a known status. It gives no walk exactly when the skip list is None. Otherwise the walk has the given level and starts from the path's status. |
| WebhdfsScan.PrepareScan | core/webhdfs.py:844-873 | The rebinding steps of `scan_dir` give exactly `Prepare` at the effective level. |
| WebhdfsScan.StartScan | core/webhdfs.py:808-880 | `scan_dir` returns exactly `ScanDir`. |
| WebhdfsScan.ContentsSound | core/webhdfs.py:770-790 | The triple of one directory reports exactly the files and directories of its listing that the filter keeps and that the object type asks for: only those (soundness) and all of those (completeness). Every child directory is descended into, whether the filter keeps it or not. |
| WebhdfsScan.DirectoriesDescended | core/webhdfs.py:770-771 | Every child directory of a listing is among those the walk descends into. |
| WebhdfsScan.WalkShape | core/webhdfs.py:749-792 | A path that is not a directory yields nothing; a missing type is KeyError; a failed listing ends the walk with its error; an empty listing yields exactly the directory's own triple with no recursion; after a non-empty listing the first triple is sound and complete for it. |
| WebhdfsScan.WalkEmptyDirectory | core/webhdfs.py:764-768 | In the walk `scan_dir` starts, an empty directory, or one that cannot be listed while errors are ignored, yields exactly its own empty triple; one that cannot be listed otherwise ends the walk with IOError. |
| WebhdfsScan.WalkDescends | core/webhdfs.py:770-804 | After a non-empty listing, a walk that ends without an exception is the directory's triple followed by the walks of its child directories. |
| WebhdfsScan.WalkSound | core/webhdfs.py:758-804 | Every triple of a walk is rooted under its start path and is sound: not skipped, right types, filter kept. |
| WebhdfsScan.ChildrenSound | core/webhdfs.py:795-804 | The same holds for the walks of all the children of a directory. |
| WebhdfsScan.ChildrenBeyondLevel | core/webhdfs.py:761-762 | Children deeper than the level yield no triple. |
| WebhdfsScan.ChildrenContain | core/webhdfs.py:795-804 | When the walk of the children ends without an exception, each child's walk also ended without one, and every triple of it is in the children's walk. |
| WebhdfsScan.RootTripleFirst | core/webhdfs.py:758-792 | A directory within the level that is not skipped, and whose walk ends without an exception, yields its own triple first. |
| WebhdfsScan.DescentIgnoresFilter | core/webhdfs.py:770-804 | Every child directory within the level that is not skipped is the root of a yielded triple, whether or not the filter keeps it. |
| WebhdfsScan.ChildRootYielded | core/webhdfs.py:795-804 | When the walk of the children ends without an exception, every child directory within the level that is not skipped is the root of one of its triples. |
| WebhdfsScan.ScanDirSound | core/webhdfs.py:844-880 | An empty path is MissingArgumentError. An unknown path is IOError. An invalid skip list is IllegalArgumentError. A None skip list fails with TypeError before yielding. Otherwise every triple is under the path and sound. |
| WebhdfsScan.ScanLevelOne | core/webhdfs.py:761-762 | With level one, `scan_dir` yields at most the triple of the path itself. |
| WebhdfsScan.ScanDefaultLevel | core/webhdfs.py:846-847 | A missing or non-positive level gives the same walk as level 500. |

## Left out

- The HTTP transport (`url_json_request`, `RemoteException` parsing, retries) is not modelled. A request either returns the stored answer or fails. An IOError carries the path rather than the source's message text.
- A LISTSTATUS answer without the `FileStatuses`/`FileStatus` keys would raise KeyError in the source. In the model the stored answer is already the list of child records.
- `get_path_status` and `get_content_summary` return the inner `FileStatus`/`ContentSummary` object. They are modelled as lookups that return that object directly.
- The URL join is the `urlJoin` function field of `Client`. The regex and fnmatch engines are the function fields of `Util.Library`. None of the three is given a body.
- Record values are ints and strings only. Python 2 floats, booleans, None, unicode strings and the `str * int` repetition in `size * replication` are not modelled. A non-integer length or replication is a TypeError.
- `Webhdfs.ListAttribute` lower-cases the key for ASCII letters only; Python's `lower()` also folds other letters.
- The `issubclass` checks of the constructors (core/search.py:107-113, 142-144) always hold, because the Dafny types make every registry argument well-typed.
- The `__new__` guards that stop registry instantiation (core/search.py:25-27) and the `__str__` methods are not modelled.
- `add_expression` is an empty stub in the source and is not modelled.
- `search_scan_flag`, and the `pattern`/`pattern_type` arguments that `_scan_dir` passes down without reading, are not modelled.
- The scanner is a lazy generator. The model is the finite sequence of triples it would yield, plus the exception that ends it. A consumer that stops early is not modelled.
- `WebhdfsScan.NormalizeSkip` models None, a string, a list, and any other collection given as its items. A falsy value that is not a collection (0, False) behaves like None in the source and is not modelled separately.
- A `None` pattern argument is modelled as the empty string; the source treats both as falsy in the same way.
- A `None` path is not modelled: every path is a string. `list_dir`, `get_path_status`, `get_content_summary` and `scan_dir` refuse a None path like an empty one. `long_list_dir(None)` instead raises AttributeError in `_get_path_url` (core/webhdfs.py:161), while `long_list_dir("")` lists the root, as `LongListDir` does.
- Search.SearchExpressionList.constructor takes an optional expression. The source also accepts a logical word as the first token (core/search.py:147-148), which `add` then appends, and rejects any other truthy value with ValueError; a list started that way is built here by `Add` on an empty list.
- `timer` reports wall-clock times on the console and `encode_params` calls the URL encoder; neither is modelled. The other client operations (mkdir, delete, move, upload, download, concat, and so on) are not part of this model.
- Webhdfs.Collect states only the length bound and the record shape; its full contents are stated by `ListingIsSelection`, `EntryStep`, `CollectOrigin` and the extension lemmas.
- Webhdfs.DirInfo states only the unlistable cases, the length bound and the record shape; its contents are stated by `DirInfoListing` and `ListingIsSelection`.
- Webhdfs.Extend states only the kept fields; what each type adds is stated by `ExtendedFileEntry`, `ExtendedDirEntry`, `TypedFileExtension`, `TypedDirExtension` and `TypedLinkExtension`.
