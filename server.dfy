/**
 * The request handling of server/main.js as the code performs it: the
 * parameter callback writes into `req.params`, and the handlers drive the
 * response through `res.status`, `res.set` and `res.end`. Each method is
 * proved to leave exactly the state the pure model in Tokens, Routes and
 * FileRead describes. File-system results are passed in as functions of
 * the path: `stat` for `fs.stat` and `readdir` for `fs.readdir`.
 */
module Server {
  import opened Wrappers
  import opened Tokens
  import opened Routes
  import opened FileRead

  const SecureRandomKey: string := "secureRandom"
  const SecurePathKey: string := "securePath"
  const FilePathKey: string := "filePath"
  const ContentTypeHeader: string := "Content-Type"

  lemma KeysDistinct()
    ensures SecureRandomKey != SecurePathKey && SecurePathKey != FilePathKey && SecureRandomKey != FilePathKey
  {
  }

  /** The request as the handlers see it: its route parameters and the media types `req.accepts` admits. */
  class Request {
    var params: map<string, string>
    const accepted: set<string>

    constructor (accepted: set<string>)
      ensures params == map[] && this.accepted == accepted
    {
      params := map[];
      this.accepted := accepted;
    }

    /** The `secureRandom` callback (server/main.js:24-33). */
    method SecureRandomParam(val: string) returns (step: ParamResult)
      modifies this
      ensures step == ParamStep(val)
      ensures params == if step.Accept? then old(params)[SecurePathKey := val] else old(params)
    {
      if PatternTest(val) {
        params := params[SecurePathKey := val];
        step := Accept(val);
      } else {
        step := NextRoute;
      }
    }
  }

  /** The response object: status code, headers, body, and whether it has been ended. */
  class Response {
    var statusCode: nat
    var headers: map<string, string>
    var body: Body
    var ended: bool

    predicate Pristine()
      reads this
    {
      statusCode == 200 && headers == map[] && body == Empty && !ended
    }

    /** What the client receives once the response is ended. */
    function Sent(): Reply
      reads this
    {
      Reply(statusCode,
            if ContentTypeHeader in headers then Some(headers[ContentTypeHeader]) else None,
            body)
    }

    constructor ()
      ensures Pristine()
    {
      statusCode, headers, body, ended := 200, map[], Empty, false;
    }

    /** `res.status(code)`. */
    method Status(code: nat)
      modifies this
      ensures statusCode == code
      ensures headers == old(headers) && body == old(body) && ended == old(ended)
    {
      statusCode := code;
    }

    /** `res.set(field, value)`. */
    method Set(field: string, value: string)
      modifies this
      ensures headers == old(headers)[field := value]
      ensures statusCode == old(statusCode) && body == old(body) && ended == old(ended)
    {
      headers := headers[field := value];
    }

    /** `res.end(...)`, and `res.sendfile(path)` with `FileContents(path)`. */
    method End(b: Body)
      modifies this
      ensures body == b && ended
      ensures statusCode == old(statusCode) && headers == old(headers)
    {
      body := b;
      ended := true;
    }
  }

  /** The bootstrap handler (server/main.js:65-70). */
  method GetBootstrap(req: Request, res: Response)
    requires SecurePathKey in req.params && FilePathKey in req.params
    requires res.Pristine()
    modifies res
    ensures res.ended
    ensures res.Sent() == Reply(200, None, Text(BootstrapBody(FilePath(req.params[FilePathKey]),
                                                              req.params[SecurePathKey])))
  {
    var securePath := req.params[SecurePathKey];
    var filePath := FilePath(req.params[FilePathKey]);
    res.End(Text(BootstrapBody(filePath, securePath)));
  }

  /** The file-read handler (server/main.js:94-128), with the stat and readdir results supplied. */
  method GetFile(req: Request, res: Response, stat: string -> Stat, readdir: string -> Option<seq<string>>)
    requires SecureRandomKey in req.params && FilePathKey in req.params
    requires res.Pristine()
    modifies res
    ensures res.ended
    ensures res.Sent() == Respond(stat(FilePath(req.params[FilePathKey])), req.accepted,
                                  FilePath(req.params[FilePathKey]), req.params[SecureRandomKey],
                                  readdir(FilePath(req.params[FilePathKey])))
  {
    var secureRandom := req.params[SecureRandomKey];
    var filePath := FilePath(req.params[FilePathKey]);
    var stats := stat(filePath);
    if stats.StatErr? || (!stats.Dir? && !stats.File?) {
      res.Status(404);
      res.End(Empty);
    } else if stats.Dir? {
      var files := readdir(filePath);
      res.Set(ContentTypeHeader, DirectoryType);
      res.End(if files.Some? then Names(files.value) else Empty);
    } else if Accepts(req.accepted, RawType) {
      res.Set(ContentTypeHeader, RawType);
      res.End(FileContents(filePath));
    } else if Accepts(req.accepted, LintType) {
      res.End(Text("Lint: " + filePath + " within " + secureRandom));
    } else if Accepts(req.accepted, DependenciesType) {
      res.End(Text("Deps: " + filePath + " within " + secureRandom));
    } else {
      res.Status(406);
      res.End(Empty);
    }
  }

  /**
   * A GET through the router: the bootstrap route, then the file route,
   * each guarded by the `secureRandom` callback. `null` means neither
   * route answered and the request went on to the static middleware.
   */
  method HandleGet(path: string, accepted: set<string>, stat: string -> Stat,
                   readdir: string -> Option<seq<string>>) returns (res: Response?)
    ensures res == null <==> Dispatch(path) == Unrouted
    ensures Dispatch(path).Bootstrap? ==>
              (res != null && res.ended &&
               res.Sent() == Reply(200, None, Text(BootstrapBody(FilePath(Dispatch(path).captured),
                                                                 Dispatch(path).securePath))))
    ensures Dispatch(path).FileGet? ==>
              (res != null && res.ended &&
               res.Sent() == Respond(stat(FilePath(Dispatch(path).captured)), accepted,
                                     FilePath(Dispatch(path).captured), Dispatch(path).secureRandom,
                                     readdir(FilePath(Dispatch(path).captured))))
  {
    KeysDistinct();
    var req := new Request(accepted);
    res := null;
    var bootstrap := SplitSegment(path);
    if bootstrap.Some? {
      req.params := map[SecureRandomKey := bootstrap.value.0, FilePathKey := bootstrap.value.1];
      var step := req.SecureRandomParam(bootstrap.value.0);
      if step.Accept? {
        res := new Response();
        GetBootstrap(req, res);
        return;
      }
    }
    var files := MatchFileRoute(path);
    if files.Some? {
      req.params := map[SecureRandomKey := files.value.0, FilePathKey := files.value.1];
      var step := req.SecureRandomParam(files.value.0);
      if step.Accept? {
        res := new Response();
        GetFile(req, res, stat, readdir);
      }
    }
  }
}
