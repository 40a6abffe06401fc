/** The handshake-URL matcher of the inspector supervisor
    (scripts/mcp-visual-debugger.ts:61): `output.match(pattern)` with the
    pattern `http://localhost:\d+/?MCP_PROXY_AUTH_TOKEN=[\w]+`, applied to one
    stdout chunk. A non-global `match` returns the leftmost match; at that
    position `\d+` can only take the whole digit run (a '/' must follow it)
    and the greedy `[\w]+` takes the whole run of word characters. */
module UrlPattern {
  import opened Common

  const Scheme := "http://localhost:"
  const TokenKey := "/?MCP_PROXY_AUTH_TOKEN="

  /** `\w` in a regular expression without the `u` flag. */
  predicate IsWordChar(c: char)
  {
    'a' <= c <= 'z' || 'A' <= c <= 'Z' || IsDigit(c) || c == '_'
  }

  ghost predicate AllDigits(s: string) { forall k :: 0 <= k < |s| ==> IsDigit(s[k]) }
  ghost predicate AllWordChars(s: string) { forall k :: 0 <= k < |s| ==> IsWordChar(s[k]) }

  /** The language of `<scheme>\d+<key>[\w]+`, for the two literal pieces of
      the pattern. */
  ghost predicate InLanguage(u: string, scheme: string, key: string)
  {
    exists digits: string, token: string ::
      u == scheme + digits + key + token
      && digits != [] && AllDigits(digits)
      && token != [] && AllWordChars(token)
  }

  /** The language of the pattern: the strings a match can consist of. */
  ghost predicate IsUrl(u: string)
  {
    InLanguage(u, Scheme, TokenKey)
  }

  /** The end of the run of digits in `s` that starts at `i`. */
  function DigitRunEnd(s: string, i: nat): (e: nat)
    requires i <= |s|
    ensures i <= e <= |s|
    ensures forall k :: i <= k < e ==> IsDigit(s[k])
    ensures e == |s| || !IsDigit(s[e])
    decreases |s| - i
  {
    if i < |s| && IsDigit(s[i]) then DigitRunEnd(s, i + 1) else i
  }

  /** The end of the run of word characters in `s` that starts at `i`. */
  function WordRunEnd(s: string, i: nat): (e: nat)
    requires i <= |s|
    ensures i <= e <= |s|
    ensures forall k :: i <= k < e ==> IsWordChar(s[k])
    ensures e == |s| || !IsWordChar(s[e])
    decreases |s| - i
  {
    if i < |s| && IsWordChar(s[i]) then WordRunEnd(s, i + 1) else i
  }

  /** Where a greedy attempt at position `i` to match `<scheme>\d+<key>[\w]+`
      ends, if it succeeds there. `\d+` takes the whole digit run and is never
      given back, so this is the engine's attempt only for a key that does not
      start with a digit (PieceMatchEndComplete); for any scheme and key, what
      it matches is a string of that language whose token cannot be
      extended. */
  function PieceMatchEnd(s: string, i: nat, scheme: string, key: string): (r: Option<nat>)
    requires i <= |s|
    ensures r.Some? ==> i < r.value <= |s|
    ensures r.Some? ==> InLanguage(s[i..r.value], scheme, key)
    ensures r.Some? ==> r.value == |s| || !IsWordChar(s[r.value])
  {
    if !OccursAt(s, scheme, i) then None
    else
      var digitsEnd := DigitRunEnd(s, i + |scheme|);
      if digitsEnd == i + |scheme| || !OccursAt(s, key, digitsEnd) then None
      else
        var tokenStart := digitsEnd + |key|;
        var tokenEnd := WordRunEnd(s, tokenStart);
        if tokenEnd == tokenStart then None
        else
          PiecesInLanguage(s, i, digitsEnd, tokenEnd, scheme, key);
          Some(tokenEnd)
  }

  /** Where the match that the regular expression engine finds when it tries
      position `i` ends, if it finds one there: a URL of the pattern's
      language whose token cannot be extended. */
  function MatchEndAt(s: string, i: nat): (r: Option<nat>)
    requires i <= |s|
    ensures r.Some? ==> i < r.value <= |s| && IsUrl(s[i..r.value])
    ensures r.Some? ==> r.value == |s| || !IsWordChar(s[r.value])
  {
    PieceMatchEnd(s, i, Scheme, TokenKey)
  }

  /** The scheme, a non-empty run of digits, the key and a non-empty run of
      word characters, laid end to end in `s`, form a string of the
      language. */
  lemma PiecesInLanguage(s: string, i: nat, k: nat, e: nat, scheme: string, key: string)
    requires OccursAt(s, scheme, i) && i + |scheme| < k && OccursAt(s, key, k) && k + |key| < e <= |s|
    requires forall x :: i + |scheme| <= x < k ==> IsDigit(s[x])
    requires forall x :: k + |key| <= x < e ==> IsWordChar(s[x])
    ensures InLanguage(s[i..e], scheme, key)
  {
    var d := i + |scheme|;
    var t := k + |key|;
    assert s[i..d] == scheme && s[k..t] == key;
    var digits, token := s[d..k], s[t..e];
    assert AllDigits(digits);
    assert AllWordChars(token);
    SplitInFour(s, i, d, k, t, e);
  }

  /** A slice is the concatenation of the four slices it splits into. */
  lemma SplitInFour(s: string, i: nat, d: nat, k: nat, t: nat, e: nat)
    requires i <= d <= k <= t <= e <= |s|
    ensures s[i..e] == s[i..d] + s[d..k] + s[k..t] + s[t..e]
  {
    assert s[k..e] == s[k..t] + s[t..e];
    assert s[d..e] == s[d..k] + s[k..e];
    assert s[i..e] == s[i..d] + s[d..e];
  }

  /** The four pieces of a concatenation, read back from the string that
      holds it at `i`. */
  lemma PiecesAt(s: string, i: nat, a: string, b: string, c: string, d: string)
    requires i + |a| + |b| + |c| + |d| <= |s|
    requires s[i..i + |a| + |b| + |c| + |d|] == a + b + c + d
    ensures OccursAt(s, a, i)
    ensures s[i + |a|..i + |a| + |b|] == b
    ensures OccursAt(s, c, i + |a| + |b|)
    ensures s[i + |a| + |b| + |c|..i + |a| + |b| + |c| + |d|] == d
  {
    var u := s[i..i + |a| + |b| + |c| + |d|];
    assert u == a + b + c + d;
    assert s[i..i + |a|] == u[..|a|] == a;
    var m, n := i + |a|, i + |a| + |b|;
    forall j | 0 <= j < |b| ensures s[m..n][j] == b[j] {
      assert s[m..n][j] == u[|a| + j] == (a + b + c + d)[|a| + j];
    }
    assert s[m..n] == b;
    forall j | 0 <= j < |c| ensures s[n..n + |c|][j] == c[j] {
      assert s[n..n + |c|][j] == u[|a| + |b| + j] == (a + b + c + d)[|a| + |b| + j];
    }
    assert s[n..n + |c|] == c;
    assert s[n + |c|..n + |c| + |d|] == u[|a| + |b| + |c|..] == d;
  }

  /** A run of digits that a non-digit ends is the run `DigitRunEnd` finds. */
  lemma {:induction false} DigitRunEndsAt(s: string, d: nat, k: nat)
    requires d <= k < |s|
    requires forall x :: d <= x < k ==> IsDigit(s[x])
    requires !IsDigit(s[k])
    ensures DigitRunEnd(s, d) == k
    decreases k - d
  {
    if d < k {
      DigitRunEndsAt(s, d + 1, k);
    }
  }

  /** The greedy run of word characters reaches past any stretch of them. */
  lemma {:induction false} WordRunReaches(s: string, t: nat, e: nat)
    requires t <= e <= |s|
    requires forall x :: t <= x < e ==> IsWordChar(s[x])
    ensures WordRunEnd(s, t) >= e
    decreases e - t
  {
    if t < e {
      WordRunReaches(s, t + 1, e);
    }
  }

  /** Every string of the language that starts at `i` is found by the engine
      at `i`, and the engine's match reaches at least as far, provided the key
      cannot continue the digit run. */
  lemma PieceMatchEndComplete(s: string, i: nat, e: nat, scheme: string, key: string)
    requires key != [] && !IsDigit(key[0])
    requires i <= e <= |s| && InLanguage(s[i..e], scheme, key)
    ensures PieceMatchEnd(s, i, scheme, key).Some? && PieceMatchEnd(s, i, scheme, key).value >= e
  {
    var digits, token :| s[i..e] == scheme + digits + key + token
      && digits != [] && AllDigits(digits) && token != [] && AllWordChars(token);
    PiecesAt(s, i, scheme, digits, key, token);
    var d := i + |scheme|;
    var slash := d + |digits|;
    var t := slash + |key|;
    forall x | d <= x < slash ensures IsDigit(s[x]) {
      assert s[x] == s[d..slash][x - d];
    }
    forall x | t <= x < e ensures IsWordChar(s[x]) {
      assert s[x] == s[t..e][x - t];
    }
    PieceMatchEndReaches(s, i, slash, e, scheme, key);
  }

  /** The engine's attempt at `i` succeeds and reaches at least `e` when the
      scheme, a non-empty digit run ending at `slash`, the key and a
      non-empty word run reaching `e` lie end to end from `i`. */
  lemma PieceMatchEndReaches(s: string, i: nat, slash: nat, e: nat, scheme: string, key: string)
    requires OccursAt(s, scheme, i) && i + |scheme| < slash && slash + |key| < e <= |s|
    requires forall x :: i + |scheme| <= x < slash ==> IsDigit(s[x])
    requires key != [] && !IsDigit(key[0]) && OccursAt(s, key, slash)
    requires forall x :: slash + |key| <= x < e ==> IsWordChar(s[x])
    ensures PieceMatchEnd(s, i, scheme, key).Some? && PieceMatchEnd(s, i, scheme, key).value >= e
  {
    assert s[slash] == key[0] by {
      assert s[slash] == s[slash..slash + |key|][0];
    }
    DigitRunEndsAt(s, i + |scheme|, slash);
    WordRunReaches(s, slash + |key|, e);
  }

  /** The pattern's key starts with '/', which cannot continue the digits. */
  lemma TokenKeyStartsWithNonDigit()
    ensures TokenKey != [] && !IsDigit(TokenKey[0])
  {
    assert TokenKey[0] == '/';
  }

  /** Every URL of the pattern's language that starts at `i` is found at `i`. */
  lemma MatchEndAtComplete(s: string, i: nat, e: nat)
    requires i <= e <= |s| && IsUrl(s[i..e])
    ensures MatchEndAt(s, i).Some? && MatchEndAt(s, i).value >= e
  {
    TokenKeyStartsWithNonDigit();
    PieceMatchEndComplete(s, i, e, Scheme, TokenKey);
  }

  /** A match: the indices of the matched text in the chunk. */
  datatype Span = Span(start: nat, end: nat)

  /** The engine's scan from position `i` onwards for `<scheme>\d+<key>[\w]+`:
      the first position at which the attempt succeeds. */
  function MatchFrom(s: string, i: nat, scheme: string, key: string): (r: Option<Span>)
    requires i <= |s|
    ensures r.Some? ==> i <= r.value.start <= |s| && PieceMatchEnd(s, r.value.start, scheme, key) == Some(r.value.end)
    ensures r.Some? ==> forall j :: i <= j < r.value.start ==> PieceMatchEnd(s, j, scheme, key).None?
    ensures r.None? ==> forall j :: i <= j <= |s| ==> PieceMatchEnd(s, j, scheme, key).None?
    decreases |s| - i
  {
    match PieceMatchEnd(s, i, scheme, key)
    case Some(e) => Some(Span(i, e))
    case None => if i == |s| then None else MatchFrom(s, i + 1, scheme, key)
  }

  /** `output.match(pattern)`: the leftmost match of the chunk, if any; what
      it matches is a URL of the pattern's language. */
  function Match(s: string): (r: Option<Span>)
    ensures r.Some? ==> r.value.start < r.value.end <= |s| && IsUrl(s[r.value.start..r.value.end])
  {
    MatchFrom(s, 0, Scheme, TokenKey)
  }

  /** The matched text, `urlMatch[0]`: a non-empty piece of the chunk with
      the handshake shape `http://localhost:<digits>/?MCP_PROXY_AUTH_TOKEN=<word
      chars>`. */
  function ExtractUrl(s: string): (r: Option<string>)
    ensures r.Some? <==> Match(s).Some?
    ensures r.Some? ==> r.value != "" && IsUrl(r.value) && Contains(s, r.value)
    ensures r.Some? ==> r.value == s[Match(s).value.start..Match(s).value.end]
  {
    match Match(s)
    case Some(m) =>
      ContainsAt(s, s[m.start..m.end], m.start);
      Some(s[m.start..m.end])
    case None => None
  }

  /** What `match` returns, stated against the pattern's language: the result
      is a piece of the chunk that the pattern describes, no piece starting
      further left is described by the pattern, and the piece found cannot be
      made longer; and there is no result exactly when no piece of the chunk
      is described by the pattern. */
  lemma {:induction false} MatchIsLeftmostLongest(s: string)
    ensures Match(s).Some? ==>
      var m := Match(s).value;
      && m.start < m.end <= |s| && IsUrl(s[m.start..m.end])
      && (forall j, e :: 0 <= j < m.start && j <= e <= |s| ==> !IsUrl(s[j..e]))
      && (forall e :: m.end < e <= |s| ==> !IsUrl(s[m.start..e]))
      && (m.end == |s| || !IsWordChar(s[m.end]))
    ensures Match(s).None? <==> forall j, e :: 0 <= j <= e <= |s| ==> !IsUrl(s[j..e])
  {
    match Match(s)
    case Some(m) =>
      forall j, e | 0 <= j < m.start && j <= e <= |s| ensures !IsUrl(s[j..e]) {
        if IsUrl(s[j..e]) { MatchEndAtComplete(s, j, e); }
      }
      forall e | m.end < e <= |s| ensures !IsUrl(s[m.start..e]) {
        if IsUrl(s[m.start..e]) { MatchEndAtComplete(s, m.start, e); }
      }
    case None =>
      forall j, e | 0 <= j <= e <= |s| ensures !IsUrl(s[j..e]) {
        if IsUrl(s[j..e]) { MatchEndAtComplete(s, j, e); }
      }
  }
}
