/**
 * The decision of the `GET /files/:secureRandom/:filePath(*)` handler in
 * server/main.js: from what `fs.stat` reported and the media types the
 * client accepts, pick one representation, then shape the response.
 */
module FileRead {
  import opened Wrappers

  const RawType: string := "application/vnd.scripted.raw"
  const DirectoryType: string := "application/vnd.scripted.directory"
  const LintType: string := "application/vnd.scripted.lint"
  const DependenciesType: string := "application/vnd.scripted.dependencies"

  /** What `fs.stat` reported: an error, a directory, a regular file, or anything else (socket, device, ...). */
  datatype Stat = StatErr | Dir | File | Other

  /** The representation the handler settles on. */
  datatype Outcome = NotFound | Listing | Raw | Lint | Dependencies | NotAcceptable

  /** `req.accepts(t)`: membership in the set of media types the client accepts. */
  predicate Accepts(accepts: set<string>, t: string) {
    t in accepts
  }

  /** The media types a regular file can be served as, most preferred first. */
  const FilePriority: seq<string> := [RawType, LintType, DependenciesType]

  /** Index of the first entry of `prefs` the client accepts, if any. */
  function FirstAcceptable(prefs: seq<string>, accepts: set<string>): (r: Option<nat>)
    ensures r.Some? ==> r.value < |prefs| && Accepts(accepts, prefs[r.value])
    ensures r.Some? ==> forall j :: 0 <= j < r.value ==> !Accepts(accepts, prefs[j])
    ensures r.None? ==> forall j :: 0 <= j < |prefs| ==> !Accepts(accepts, prefs[j])
  {
    if prefs == [] then None
    else if Accepts(accepts, prefs[0]) then Some(0)
    else
      match FirstAcceptable(prefs[1..], accepts)
      case None => None
      case Some(i) => Some(i + 1)
  }

  /** The outcome that belongs to a position in `FilePriority`. */
  function FileOutcome(choice: Option<nat>): (o: Outcome) {
    match choice
    case Some(0) => Raw
    case Some(1) => Lint
    case Some(2) => Dependencies
    case _ => NotAcceptable
  }

  lemma MediaTypesDistinct()
    ensures RawType != LintType && RawType != DependenciesType && LintType != DependenciesType
  {
  }

  /**
   * The branch chain of the handler (server/main.js:99-126), in its order:
   * stat error or neither file nor directory, directory, then raw, lint and
   * dependencies as the client accepts them, and otherwise not acceptable.
   */
  function Select(stat: Stat, accepts: set<string>): (o: Outcome)
    ensures o == NotFound <==> !stat.Dir? && !stat.File?
    ensures o == Listing <==> stat.Dir?
  {
    if stat.StatErr? || (!stat.Dir? && !stat.File?) then NotFound
    else if stat.Dir? then Listing
    else if Accepts(accepts, RawType) then Raw
    else if Accepts(accepts, LintType) then Lint
    else if Accepts(accepts, DependenciesType) then Dependencies
    else NotAcceptable
  }

  /** For a regular file the branch chain is negotiation by `FilePriority`: the first acceptable type wins. */
  lemma SelectFollowsPriority(accepts: set<string>)
    ensures Select(File, accepts) == FileOutcome(FirstAcceptable(FilePriority, accepts))
  {
    MediaTypesDistinct();
    var tail := FilePriority[1..];
    assert tail == [LintType, DependenciesType];
    var last := FirstAcceptable(tail[1..], accepts);
    var mid := FirstAcceptable(tail, accepts);
  }

  /** The rule for each outcome, stated on the inputs alone. */
  predicate Condition(o: Outcome, stat: Stat, accepts: set<string>) {
    match o
    case NotFound => stat == StatErr || stat == Other
    case Listing => stat == Dir
    case Raw => stat == File && RawType in accepts
    case Lint => stat == File && RawType !in accepts && LintType in accepts
    case Dependencies =>
      stat == File && RawType !in accepts && LintType !in accepts && DependenciesType in accepts
    case NotAcceptable =>
      stat == File && RawType !in accepts && LintType !in accepts && DependenciesType !in accepts
  }

  /** The handler picks an outcome exactly when that outcome's rule holds. */
  lemma SelectMeetsCondition(o: Outcome, stat: Stat, accepts: set<string>)
    ensures Select(stat, accepts) == o <==> Condition(o, stat, accepts)
  {
  }

  /** The rules exclude one another: no input satisfies two of them. */
  lemma ConditionsExclusive(o1: Outcome, o2: Outcome, stat: Stat, accepts: set<string>)
    requires Condition(o1, stat, accepts) && Condition(o2, stat, accepts)
    ensures o1 == o2
  {
  }

  /** For a regular file, raw wins whenever it is acceptable, whatever else is. */
  lemma RawFirst(accepts: set<string>)
    requires RawType in accepts
    ensures Select(File, accepts) == Raw
  {
  }

  /** Lint is chosen only when raw is not acceptable. */
  lemma LintOnlyWithoutRaw(accepts: set<string>)
    requires Select(File, accepts) == Lint
    ensures RawType !in accepts && LintType in accepts
  {
  }

  /** Dependencies are chosen only when neither raw nor lint is acceptable. */
  lemma DependenciesOnlyWithoutRawOrLint(accepts: set<string>)
    requires Select(File, accepts) == Dependencies
    ensures RawType !in accepts && LintType !in accepts && DependenciesType in accepts
  {
  }

  /** A directory is listed whatever the client accepts. */
  lemma DirectoryIgnoresAccepts(a1: set<string>, a2: set<string>)
    ensures Select(Dir, a1) == Select(Dir, a2) == Listing
  {
  }

  /** What the handler ends the response with. */
  datatype Body =
    | Empty                          // `res.end()`
    | Text(text: string)             // `res.end(string)`
    | FileContents(path: string)     // `res.sendfile(path)`
    | Names(names: seq<string>)      // `res.end(JSON.stringify(files))`

  /** A finished response: status, the Content-Type header if one was set, and the body. */
  datatype Reply = Reply(status: nat, contentType: Option<string>, body: Body)

  /**
   * The response each outcome produces. `listing` is what `fs.readdir`
   * returned; on a readdir error `files` is undefined and the body is empty.
   */
  function Render(o: Outcome, filePath: string, secureRandom: string, listing: Option<seq<string>>): (r: Reply)
    ensures r.status == 404 <==> o == NotFound
    ensures r.status == 406 <==> o == NotAcceptable
    ensures r.status == 200 <==> o != NotFound && o != NotAcceptable
    ensures o == NotFound || o == NotAcceptable ==> r.contentType == None && r.body == Empty
    ensures r.contentType == Some(DirectoryType) <==> o == Listing
    ensures r.contentType == Some(RawType) <==> o == Raw
    ensures o == Raw ==> r.body == FileContents(filePath)
    ensures o == Listing && listing.Some? ==> r.body == Names(listing.value)
    ensures o == Listing && listing.None? ==> r.body == Empty
    ensures o == Lint ==> r == Reply(200, None, Text("Lint: " + filePath + " within " + secureRandom))
    ensures o == Dependencies ==> r == Reply(200, None, Text("Deps: " + filePath + " within " + secureRandom))
  {
    match o
    case NotFound => Reply(404, None, Empty)
    case Listing => Reply(200, Some(DirectoryType), if listing.Some? then Names(listing.value) else Empty)
    case Raw => Reply(200, Some(RawType), FileContents(filePath))
    case Lint => Reply(200, None, Text("Lint: " + filePath + " within " + secureRandom))
    case Dependencies => Reply(200, None, Text("Deps: " + filePath + " within " + secureRandom))
    case NotAcceptable => Reply(406, None, Empty)
  }

  /** The reply to a file read, from the stat result and the accepted types. */
  function Respond(stat: Stat, accepts: set<string>, filePath: string, secureRandom: string,
                   listing: Option<seq<string>>): (r: Reply)
    ensures r.status == 404 <==> !stat.Dir? && !stat.File?
    ensures r.status == 406 <==> stat.File? && FirstAcceptable(FilePriority, accepts).None?
    ensures r.contentType == Some(RawType) <==> stat.File? && Accepts(accepts, RawType)
    ensures stat.File? ==> r == Render(FileOutcome(FirstAcceptable(FilePriority, accepts)),
                                       filePath, secureRandom, listing)
  {
    SelectFollowsPriority(accepts);
    Render(Select(stat, accepts), filePath, secureRandom, listing)
  }

  /** A failed stat, or something neither file nor directory, is a bare 404 whatever the client accepts. */
  lemma MissingIsBare404(stat: Stat, accepts: set<string>, filePath: string, secureRandom: string,
                         listing: Option<seq<string>>)
    requires stat == StatErr || stat == Other
    ensures Respond(stat, accepts, filePath, secureRandom, listing) == Reply(404, None, Empty)
  {
  }

  /** The directory-listing type is sent for directories and for nothing else. */
  lemma DirectoryTypeOnlyForDirectories(stat: Stat, accepts: set<string>, filePath: string,
                                        secureRandom: string, listing: Option<seq<string>>)
    ensures Respond(stat, accepts, filePath, secureRandom, listing).contentType == Some(DirectoryType)
            <==> stat == Dir
  {
  }

  /** A regular file with none of the three types acceptable is a bare 406. */
  lemma NothingAcceptableIs406(accepts: set<string>, filePath: string, secureRandom: string,
                               listing: Option<seq<string>>)
    requires RawType !in accepts && LintType !in accepts && DependenciesType !in accepts
    ensures Respond(File, accepts, filePath, secureRandom, listing) == Reply(406, None, Empty)
  {
  }
}
