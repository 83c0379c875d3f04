/**
 * The `secureRandom` path-parameter check of server/main.js.
 *
 * Every route with a `:secureRandom` segment runs the parameter callback
 * first. It tests the segment against `/^[a-f0-9]{8,}$/`: on a match the
 * segment is copied into `req.params.securePath` and the route proceeds;
 * otherwise the callback calls `next('route')` and the router tries the
 * next route.
 */
module Tokens {
  import opened Wrappers

  /** The `{8,}` of the pattern: the shortest token accepted. */
  const MinTokenLength: nat := 8

  /** The character class `[a-f0-9]`. Upper-case digits are not in it. */
  predicate IsLowerHexDigit(c: char) {
    ('a' <= c <= 'f') || ('0' <= c <= '9')
  }

  predicate AllLowerHex(s: string) {
    forall i :: 0 <= i < |s| ==> IsLowerHexDigit(s[i])
  }

  /** The language of `/^[a-f0-9]{8,}$/`: only class characters, at least eight of them. */
  predicate IsToken(s: string) {
    |s| >= MinTokenLength && AllLowerHex(s)
  }

  function Min(a: nat, b: nat): (m: nat) {
    if a <= b then a else b
  }

  /**
   * One step of the pattern as an automaton. State `q` counts the class
   * characters read so far, saturating at `MinTokenLength` (the `{8,}`
   * loops there); a character outside the class kills the match, since
   * the pattern is anchored at both ends.
   */
  function Step(q: nat, c: char): (r: Option<nat>)
    requires q <= MinTokenLength
    ensures r.Some? <==> IsLowerHexDigit(c)
    ensures r.Some? ==> r.value == Min(q + 1, MinTokenLength)
  {
    if !IsLowerHexDigit(c) then None
    else if q < MinTokenLength then Some(q + 1)
    else Some(q)
  }

  /** Runs the automaton from state `q` over all of `s`; `None` once it dies. */
  function Run(q: nat, s: string): (r: Option<nat>)
    requires q <= MinTokenLength
    decreases |s|
  {
    if s == [] then Some(q)
    else
      match Step(q, s[0])
      case None => None
      case Some(q') => Run(q', s[1..])
  }

  /**
   * `/^[a-f0-9]{8,}$/.test(s)`: the run ends in the accepting state. It
   * decides exactly the declarative language of the pattern.
   */
  predicate PatternTest(s: string): (b: bool)
    ensures b <==> IsToken(s)
  {
    RunCounts(0, s);
    Run(0, s) == Some(MinTokenLength)
  }

  /** The automaton survives exactly the all-hex inputs and then has counted their length, capped at eight. */
  lemma {:induction false} RunCounts(q: nat, s: string)
    requires q <= MinTokenLength
    ensures Run(q, s) == if AllLowerHex(s) then Some(Min(q + |s|, MinTokenLength)) else None
    decreases |s|
  {
    if s != [] {
      var tail := s[1..];
      assert forall i :: 0 <= i < |tail| ==> tail[i] == s[i + 1];
      assert AllLowerHex(s) <==> IsLowerHexDigit(s[0]) && AllLowerHex(tail);
      if IsLowerHexDigit(s[0]) {
        RunCounts(Min(q + 1, MinTokenLength), tail);
      }
    }
  }

  /** What the parameter callback does with a segment. */
  datatype ParamResult =
    | Accept(securePath: string)   // `req.params.securePath = val; next()`
    | NextRoute                    // `next('route')`

  /** The decision of the `secureRandom` callback (server/main.js:26-32). */
  function ParamStep(val: string): (r: ParamResult)
    ensures r.Accept? <==> IsToken(val)
    ensures r.Accept? ==> r.securePath == val
  {
    if PatternTest(val) then Accept(val) else NextRoute
  }

  /** No segment containing '/' is ever a token, so a token is always one whole path segment. */
  lemma TokenHasNoSlash(s: string, i: int)
    requires IsToken(s) && 0 <= i < |s|
    ensures s[i] != '/'
  {
  }

  /** Upper-case hex is outside the class. */
  lemma UpperCaseRejected()
    ensures ParamStep("DEADBEEF") == NextRoute
  {
  }

  /** Seven characters are one too few. */
  lemma SevenCharactersRejected()
    ensures ParamStep("abc1234") == NextRoute
  {
  }

  /** The literal segment of the file route is not a token. */
  lemma FilesRejected()
    ensures ParamStep("files") == NextRoute
  {
  }

  /** A ten-character lower-hex segment passes and is kept verbatim. */
  lemma HexTokenAccepted()
    ensures ParamStep("deadbeef01") == Accept("deadbeef01")
  {
  }
}
