/**
 * The two GET routes of server/main.js and the order the router tries them.
 *
 * `/:secureRandom/:filePath(*)` (the editor bootstrap) is registered before
 * `/files/:secureRandom/:filePath(*)` (the file read). Both patterns are
 * matched against the request's pathname: a leading '/', a non-empty
 * segment without '/', a '/', and then everything else as `filePath` (the
 * `(*)` capture is greedy, so it also takes a trailing '/'). Route matching
 * ignores ASCII case, so the literal `files` also matches `FILES`; the token
 * pattern itself does not.
 */
module Routes {
  import opened Wrappers
  import opened Tokens

  predicate NoSlash(s: string) {
    forall i :: 0 <= i < |s| ==> s[i] != '/'
  }

  /** The file path both handlers build: `'/' + req.params.filePath`. */
  function FilePath(captured: string): (p: string)
    ensures |p| == |captured| + 1
    ensures p[0] == '/' && p[1..] == captured
  {
    "/" + captured
  }

  /** The captured segment is recoverable from the file path, so distinct captures give distinct paths. */
  lemma FilePathInjective(c1: string, c2: string)
    requires FilePath(c1) == FilePath(c2)
    ensures c1 == c2
  {
  }

  /** The body the bootstrap route ends the response with. */
  function BootstrapBody(filePath: string, securePath: string): (b: string)
    ensures |b| == |"Editor: "| + |filePath| + |" within "| + |securePath|
    ensures b[..8] == "Editor: "
    ensures b[8..8 + |filePath|] == filePath
    ensures b[8 + |filePath|..16 + |filePath|] == " within "
    ensures b[|b| - |securePath|..] == securePath
  {
    "Editor: " + filePath + " within " + securePath
  }

  /** Index of the first '/' of `s` at or after `i`, or `|s|` when there is none. */
  function NextSlash(s: string, i: nat): (k: nat)
    requires i <= |s|
    ensures i <= k <= |s|
    ensures k < |s| ==> s[k] == '/'
    ensures forall j :: i <= j < k ==> s[j] != '/'
    decreases |s| - i
  {
    if i == |s| || s[i] == '/' then i else NextSlash(s, i + 1)
  }

  /**
   * The shape `/:segment/:rest(*)`: the segment is non-empty and holds no
   * '/', and the rest is whatever follows the next '/'.
   */
  function SplitSegment(path: string): (r: Option<(string, string)>)
    ensures r.Some? ==> r.value.0 != [] && NoSlash(r.value.0)
    ensures r.Some? ==> path == "/" + r.value.0 + "/" + r.value.1
  {
    if |path| == 0 || path[0] != '/' then None
    else
      var k := NextSlash(path, 1);
      if k == 1 || k == |path| then None
      else
        assert path == "/" + path[1..k] + "/" + path[k + 1..];
        Some((path[1..k], path[k + 1..]))
  }

  /** Splitting inverts joining: a slash-free segment and any rest come back unchanged. */
  lemma SplitSegmentOfJoin(seg: string, rest: string)
    requires seg != [] && NoSlash(seg)
    ensures SplitSegment("/" + seg + "/" + rest) == Some((seg, rest))
  {
    var path := "/" + seg + "/" + rest;
    var k := NextSlash(path, 1);
    assert path[1 + |seg|] == '/';
    assert forall j :: 1 <= j < 1 + |seg| ==> path[j] == seg[j - 1];
    assert k == 1 + |seg|;
    assert path[1..k] == seg;
    assert path[k + 1..] == rest;
  }

  /** ASCII lower-casing, the folding a case-insensitive route pattern applies. */
  function LowerAscii(c: char): (l: char) {
    if 'A' <= c <= 'Z' then (c as int + 32) as char else c
  }

  /**
   * The literal first segment of the file route, compared without regard
   * to ASCII case: each of the five letters in either case, and so never
   * a '/' and never a token.
   */
  predicate IsFilesSegment(seg: string): (b: bool)
    ensures b <==> |seg| == 5 && forall i :: 0 <= i < 5 ==> seg[i] == "files"[i] || seg[i] == "FILES"[i]
    ensures b ==> NoSlash(seg) && !IsToken(seg)
  {
    |seg| == 5 && forall i :: 0 <= i < 5 ==> LowerAscii(seg[i]) == "files"[i]
  }

  /** `/files/:secureRandom/:filePath(*)`: the token segment and the captured file path. */
  function MatchFileRoute(path: string): (r: Option<(string, string)>)
    ensures r.Some? ==> r.value.0 != [] && NoSlash(r.value.0)
    ensures r.Some? ==> |path| >= 7 && IsFilesSegment(path[1..6])
                        && path == path[..7] + r.value.0 + "/" + r.value.1
  {
    match SplitSegment(path)
    case None => None
    case Some((head, rest)) =>
      if !IsFilesSegment(head) then None
      else
        var r := SplitSegment("/" + rest);
        if r.Some? then
          assert path[1..6] == head;
          assert path[..7] == "/" + head + "/";
          r
        else r
  }

  /** Matching the file route inverts joining: any-case `files`, a slash-free segment and any rest come back. */
  lemma MatchFileRouteOfJoin(f: string, seg: string, rest: string)
    requires IsFilesSegment(f) && seg != [] && NoSlash(seg)
    ensures MatchFileRoute("/" + f + "/" + seg + "/" + rest) == Some((seg, rest))
  {
    var tail := seg + "/" + rest;
    assert "/" + f + "/" + seg + "/" + rest == "/" + f + "/" + tail;
    SplitSegmentOfJoin(f, tail);
    assert "/" + tail == "/" + seg + "/" + rest;
    SplitSegmentOfJoin(seg, rest);
  }

  /** Which handler answers a GET, or `Unrouted` when both routes pass it on. */
  datatype Route =
    | Bootstrap(securePath: string, captured: string)
    | FileGet(secureRandom: string, captured: string)
    | Unrouted

  /**
   * The router: the bootstrap route first, then the file route; on each,
   * the `secureRandom` callback decides whether the route runs or the next
   * one is tried. `Unrouted` requests go on to the static middleware.
   */
  function Dispatch(path: string): (r: Route)
    ensures r.Bootstrap? ==> IsToken(r.securePath) && path == "/" + r.securePath + "/" + r.captured
    ensures r.FileGet? ==> IsToken(r.secureRandom) && |path| >= 7 && IsFilesSegment(path[1..6])
                           && path == path[..7] + r.secureRandom + "/" + r.captured
  {
    var b := SplitSegment(path);
    if b.Some? && ParamStep(b.value.0).Accept? then
      Bootstrap(ParamStep(b.value.0).securePath, b.value.1)
    else
      var f := MatchFileRoute(path);
      if f.Some? && ParamStep(f.value.0).Accept? then
        FileGet(ParamStep(f.value.0).securePath, f.value.1)
      else Unrouted
  }

  /** A token as first segment always reaches the bootstrap route, with the rest captured verbatim. */
  lemma DispatchBootstrap(token: string, captured: string)
    requires IsToken(token)
    ensures Dispatch("/" + token + "/" + captured) == Bootstrap(token, captured)
  {
    forall i | 0 <= i < |token| ensures token[i] != '/' {
      TokenHasNoSlash(token, i);
    }
    SplitSegmentOfJoin(token, captured);
  }

  /** A first segment that is `files` in any case never reaches the bootstrap route. */
  lemma FilesSegmentSkipsBootstrap(seg: string, rest: string)
    requires IsFilesSegment(seg)
    ensures !Dispatch("/" + seg + "/" + rest).Bootstrap?
  {
    SplitSegmentOfJoin(seg, rest);
  }

  /** `/<files in any case>/<token>/<path>` is answered by the file route with that token and path. */
  lemma DispatchFileGet(f: string, token: string, captured: string)
    requires IsFilesSegment(f) && IsToken(token)
    ensures Dispatch("/" + f + "/" + token + "/" + captured) == FileGet(token, captured)
  {
    forall i | 0 <= i < |token| ensures token[i] != '/' {
      TokenHasNoSlash(token, i);
    }
    SplitSegmentOfJoin(f, token + "/" + captured);
    assert "/" + f + "/" + token + "/" + captured == "/" + f + "/" + (token + "/" + captured);
    MatchFileRouteOfJoin(f, token, captured);
  }

  /** Route matching ignores case: an upper-case `FILES` still reaches the file route. */
  lemma UpperCaseFilesRouted()
    ensures Dispatch("/FILES/deadbeef01/a/b") == FileGet("deadbeef01", "a/b")
  {
    var f, token, captured := "FILES", "deadbeef01", "a/b";
    assert IsFilesSegment(f) by {
      assert forall i :: 0 <= i < 5 ==> LowerAscii(f[i]) == "files"[i];
    }
    assert IsToken(token) by {
      assert forall i :: 0 <= i < |token| ==> IsLowerHexDigit(token[i]);
    }
    assert "/" + f + "/" + token + "/" + captured == "/FILES/deadbeef01/a/b";
    DispatchFileGet(f, token, captured);
  }

  /** A first segment that is not a token, when it is not `files` either, is not routed at all. */
  lemma NonTokenUnrouted(seg: string, captured: string)
    requires seg != [] && NoSlash(seg) && !IsToken(seg) && !IsFilesSegment(seg)
    ensures Dispatch("/" + seg + "/" + captured) == Unrouted
  {
    SplitSegmentOfJoin(seg, captured);
  }
}
