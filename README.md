# scripted-alt request core, modelled in Dafny

A model of the decision logic in `server/main.js` of scripted-alt. That file is an
Express server that exposes a project tree to a browser editor. Two pieces of it make
decisions; the rest is wiring.

* **The `secureRandom` parameter check.** A path segment is accepted as a token only when
  it matches `/^[a-f0-9]{8,}$/`. An accepted segment is copied into `req.params.securePath`.
  Any other segment makes the router skip to the next route. This check is also the
  routing guard: `files` is not a token, so `/files/...` passes the bootstrap route by and
  reaches the file route.
* **The file-read handler.** It takes the `fs.stat` result and the media types the
  client accepts, and chooses exactly one reply:
  1. 404 when stat fails or the path is neither a file nor a directory;
  2. otherwise a directory listing;
  3. otherwise raw content;
  4. otherwise lint output;
  5. otherwise the dependency list;
  6. otherwise 406.

Files and modules:

* `wrappers.dfy` (`Wrappers`): `Option`.
* `tokens.dfy` (`Tokens`): the character class, two definitions of the token pattern and a
  proof that they are equal, and `ParamStep`, the callback's decision.
  * `IsToken` is the plain definition: every character in the class, length at least eight.
  * `PatternTest` runs the pattern as an automaton with a counter that stops at eight.
* `routes.dfy` (`Routes`): both handlers build their path as `'/' + filePath`
  (`FilePath`); the bootstrap body; the shape both route patterns share; and the router
  (`Dispatch`). The router tries the bootstrap route first, then the file route.
* `fileread.dfy` (`FileRead`): the stat result (`Stat`), the handler's branch chain
  (`Select`), and the shape of the reply (`Render`, `Respond`). `Select` is checked against
  two other definitions:
  * a priority list, `FirstAcceptable` over raw, lint, dependencies;
  * a table of conditions, one per outcome (`Condition`).
* `server.dfy` (`Server`): the same code written as it acts on objects.
  * `Request.SecureRandomParam` writes `securePath` into the request's parameter map.
  * `GetBootstrap` and `GetFile` drive a `Response` object through `status`, `set` and `end`.
  * `HandleGet` runs a request through both routes.
  * Each method is proved to leave the state the pure functions describe.

Choices made in the model:

* `req.accepts(t)` is membership of `t` in a set of acceptable media types.
* `fs.stat` and `fs.readdir` are parameters: functions from the path to their result.
* Express matches route patterns without regard to ASCII case. So `/FILES/<token>/...`
  also reaches the file route, and `IsFilesSegment` models that. The token pattern has
  no `i` flag, so it is case-sensitive.
* The `(*)` capture is greedy and takes everything after the `/` that ends the token
  segment, including a trailing `/`. A request with no `/` after the first segment
  matches neither route.

Where the code and its surrounding description disagree, the model follows the code:

* The doc comments (server/main.js:63, 90) describe a 403 for an untrusted token.
  The code never sends one. A rejected segment only calls
  `next('route')`; in the model that is `NextRoute`, and `Unrouted` when no route is left.
* The doc comment at server/main.js:84 names the directory type
  `application/vmc.scripted.directory`. The code sends `application/vnd.scripted.directory`,
  and `DirectoryType` uses the code's spelling.
* The doc comments at server/main.js:85-86 announce the media types
  `application/vnd.scripted.lint` and `application/vnd.scripted.dependencies`. The code
  only uses them to negotiate. The lint and dependencies replies set no Content-Type
  (server/main.js:117, 120), and `Render` sends none.
* The code has no token registry, path confinement, versioned save or delete, command
  streaming or event channel:
  * the token is never turned into a root (server/main.js:25 is a TODO);
  * the file path is `'/'` followed by the captured segment, taken from the file-system root;
  * the PUT, DELETE, preferences, commands and events routes exist only as comments
    (server/main.js:131-216).

## Model

| member | source | states |
|---|---|---|
| Tokens.RunCounts | server/main.js:26 | The pattern automaton survives an input exactly when every character is in `[a-f0-9]`. It then ends in the state min(start + length, 8). |
| Tokens.PatternTest | server/main.js:26 | `/^[a-f0-9]{8,}$/.test` accepts a segment if and only if every character is a lower-case hex digit and there are at least eight. |
| Tokens.ParamStep | server/main.js:24-33 | The callback accepts a segment if and only if it is a token. An accepted segment becomes `securePath` unchanged. Any other segment goes to `next('route')`. |
| Tokens.TokenHasNoSlash | server/main.js:26 | A token never contains `/`, so it is always one whole path segment. |
| Tokens.UpperCaseRejected | server/main.js:26 | `DEADBEEF` is rejected: upper-case hex is outside the class. |
| Tokens.SevenCharactersRejected | server/main.js:26 | `abc1234` (seven characters) is rejected. |
| Tokens.FilesRejected | server/main.js:26 | The literal segment `files` is rejected. |
| Tokens.HexTokenAccepted | server/main.js:26-28 | `deadbeef01` is accepted and kept verbatim as `securePath`. |
| Server.Request.SecureRandomParam | server/main.js:24-33 | The decision equals `ParamStep`. An accepted segment is stored under `securePath` and the rest of `req.params` is unchanged. A rejected segment leaves `req.params` untouched. |
| Routes.FilePath | server/main.js:97 | The file path is `/` followed by exactly the captured segment, so it always starts with `/` and is one character longer. |
| Routes.FilePathInjective | server/main.js:68 | Different captured segments never give the same file path. |
| Routes.BootstrapBody | server/main.js:69 | The bootstrap body is `Editor: `, then the file path, then ` within `, then the token, each at its stated position. |
| Routes.SplitSegment | server/main.js:65 | A match of `/:segment/:rest(*)` yields a non-empty, slash-free segment, and the path is exactly `/` + segment + `/` + rest. |
| Routes.SplitSegmentOfJoin | server/main.js:65 | Matching inverts joining: `/` + segment + `/` + rest gives back that segment and rest, for any slash-free, non-empty segment. |
| Routes.IsFilesSegment | server/main.js:94 | The literal `files` matches a segment exactly when the segment has five characters, each the letter of `files` in lower or upper case. Such a segment holds no `/` and is never a token. |
| Routes.MatchFileRoute | server/main.js:94 | A match of `/files/:secureRandom/:filePath(*)` has `files`, in any ASCII case, as its first segment. It yields a slash-free token segment, and the path re-assembles from the two captures. |
| Routes.MatchFileRouteOfJoin | server/main.js:94 | The file route matches every `/<files in any case>/<segment>/<rest>` with a slash-free, non-empty segment, and captures exactly that segment and rest. |
| Routes.Dispatch | server/main.js:65-94 | The bootstrap route answers only when the first segment is a token, and then the path is `/token/captured`. The file route answers only when the first segment is `files` and the second is a token. |
| Routes.DispatchBootstrap | server/main.js:65-70 | A token as first segment is always answered by the bootstrap route, with the token and the captured rest unchanged. |
| Routes.FilesSegmentSkipsBootstrap | server/main.js:26-31 | A request whose first segment is `files` in any ASCII case is never answered by the bootstrap route. |
| Routes.DispatchFileGet | server/main.js:94-97 | `/<files in any case>/<token>/<path>` is answered by the file route with that token and path. |
| Routes.UpperCaseFilesRouted | server/main.js:94 | `/FILES/deadbeef01/a/b` is answered by the file route with token `deadbeef01` and path `a/b`. |
| Routes.NonTokenUnrouted | server/main.js:30-31 | A first segment that is neither a token nor `files` is answered by neither route. |
| FileRead.FirstAcceptable | server/main.js:112-126 | When the result is an index, that entry is acceptable and no earlier entry is. When there is no result, no entry is acceptable. |
| FileRead.Select | server/main.js:99-111 | The result is 404 exactly when stat failed or found neither a file nor a directory. It is a listing exactly when stat found a directory. |
| FileRead.SelectFollowsPriority | server/main.js:112-126 | For a regular file, the branch chain picks the first acceptable type in the order raw, lint, dependencies. When none is acceptable it picks not-acceptable. |
| FileRead.SelectMeetsCondition | server/main.js:99-126 | The handler picks each outcome exactly when that outcome's rule on the stat kind and the acceptable types holds (both directions). |
| FileRead.ConditionsExclusive | server/main.js:99-126 | No input satisfies the rules of two different outcomes, so exactly one outcome is produced. |
| FileRead.RawFirst | server/main.js:112-115 | A regular file is served raw whenever raw is acceptable, whatever else is acceptable. |
| FileRead.LintOnlyWithoutRaw | server/main.js:116-118 | Lint is chosen only when raw is not acceptable and lint is. |
| FileRead.DependenciesOnlyWithoutRawOrLint | server/main.js:119-121 | Dependencies are chosen only when neither raw nor lint is acceptable. |
| FileRead.DirectoryIgnoresAccepts | server/main.js:105-110 | A directory is listed whatever the client accepts. |
| FileRead.Render | server/main.js:99-126 | Status 404 appears exactly for not-found and 406 exactly for not-acceptable; both come with no content type and an empty body. Otherwise the status is 200. The directory content type is set exactly for a listing and the raw type exactly for raw, which sends the file at the path. A listing carries the names readdir gave, or an empty body when readdir failed. Lint and dependencies reply 200 with no content type and the body `Lint: `/`Deps: ` + path + ` within ` + token. |
| FileRead.Respond | server/main.js:99-126 | The whole file reply is 404 exactly when stat found neither a file nor a directory. It is 406 exactly for a file with no acceptable type, and raw-typed exactly for a file whose raw type is acceptable. For a file it is the reply of the first acceptable type in priority order. |
| FileRead.MissingIsBare404 | server/main.js:99-104 | A failed stat, or something neither file nor directory, always gives a bare 404, whatever the client accepts. |
| FileRead.DirectoryTypeOnlyForDirectories | server/main.js:105-110 | `application/vnd.scripted.directory` is sent if and only if the path is a directory. |
| FileRead.NothingAcceptableIs406 | server/main.js:122-126 | A regular file for which raw, lint and dependencies are all unacceptable gives a bare 406. |
| Server.Response.Status | server/main.js:102 | `res.status(code)` sets the status code and changes nothing else. |
| Server.Response.Set | server/main.js:107 | `res.set(field, value)` sets that one header and changes nothing else. |
| Server.Response.End | server/main.js:103-125 | `res.end(body)` and `res.sendfile(path)` set the body and end the response, leaving status and headers as they were. |
| Server.GetBootstrap | server/main.js:65-70 | The bootstrap handler ends the response with status 200, no content type, and the bootstrap body for `'/' + filePath` and `securePath`. |
| Server.GetFile | server/main.js:94-128 | The file handler's calls to `res.status`, `res.set` and `res.end` leave exactly the reply that `Render(Select(...))` gives for the stat of `'/' + filePath`. |
| Server.HandleGet | server/main.js:65-128 | A GET is answered by a route exactly when `Dispatch` names one. The reply is then the bootstrap body or the file reply for the captured segments. |

## Left out

- `fs.stat`, `fs.readdir` and `res.sendfile` do real file-system I/O. They appear only as their results: the `Stat` kind, an optional list of names, and a `FileContents(path)` body.
- FileRead.Render: for a raw reply the model assumes a plain 200 with the whole file. `res.sendfile` (server/main.js:114) chooses its own status and body for range and conditional requests, for paths it refuses, for a file that vanishes and for a failed read; none of that is modelled. Nor is content-type guessing by `sendfile`; the handler has already set the type.
- The JSON text of a directory listing is not modelled. `JSON.stringify(files)` is kept as the list of names (`Names`). A failed `readdir`, where `files` is undefined, gives an empty body.
- Express content negotiation inside `req.accepts` (media ranges, q-values, a missing Accept header) is not modelled. It is a set of acceptable types.
- URL decoding of route parameters and the query string are not modelled. Routes are matched on the pathname as given.
- Express plumbing is not modelled: `app.configure`, the router and static middleware, the error handler, `app.listen` and `console.log` (server/main.js:12-21, 220-221). `Unrouted` stands for "passed on to the static middleware".
- The 403 responses in the doc comments (server/main.js:63, 90) are left out because the code never sends them.
- The routes that exist only as comments are left out because they have no behaviour: PUT, DELETE, preferences, commands, events (server/main.js:131-216).
- Token-to-root translation is left out because it is a TODO in the code (server/main.js:25). There is no registry and no path confinement.
- `client/app/run.js` is not part of this model: it configures the curl module loader and calls it, with no logic of its own.
- Concurrency and the asynchronous callbacks are not modelled. Each handler runs to completion as one method.
