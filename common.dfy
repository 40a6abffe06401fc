/** Small shared vocabulary: optional values, results of operations that can
    throw, and the string helpers the three programs rely on. */
module Common {

  datatype Option<+T> = None | Some(value: T)

  /** The outcome of an operation that either returns a value or throws an
      Error whose message is `error`. */
  datatype Result<+T> = Ok(value: T) | Err(error: string)

  /** The outcome of a step that returns nothing or throws. */
  datatype Outcome = Pass | Fail(error: string)

  /** JavaScript's `s.includes(t)`: `t` occurs in `s` as a contiguous piece. */
  predicate Contains(s: string, t: string)
    ensures Contains(s, t) ==> |t| <= |s|
    decreases |s|
  {
    |t| <= |s| && (s[..|t|] == t || Contains(s[1..], t))
  }

  /** `t` occurs in `s` starting at index `i`. */
  predicate OccursAt(s: string, t: string, i: nat)
  {
    i + |t| <= |s| && s[i..i + |t|] == t
  }

  lemma {:induction false} ContainsAt(s: string, t: string, i: nat)
    requires i + |t| <= |s| && s[i..i + |t|] == t
    ensures Contains(s, t)
    decreases i
  {
    if i > 0 {
      assert s[1..][i - 1..i - 1 + |t|] == s[i..i + |t|];
      ContainsAt(s[1..], t, i - 1);
    }
  }

  lemma ContainsMiddle(a: string, b: string, c: string)
    ensures Contains(a + b + c, b)
  {
    var s := a + b + c;
    assert s[|a|..|a| + |b|] == b;
    ContainsAt(s, b, |a|);
  }

  /** The converse of `ContainsAt`: a contained piece occurs at some index. */
  lemma {:induction false} ContainsOccurs(s: string, t: string)
    requires Contains(s, t)
    ensures exists i: nat :: OccursAt(s, t, i)
    decreases |s|
  {
    if s[..|t|] == t {
      assert OccursAt(s, t, 0);
    } else {
      ContainsOccurs(s[1..], t);
      var i: nat :| OccursAt(s[1..], t, i);
      assert s[1..][i..i + |t|] == s[i + 1..i + 1 + |t|];
      assert OccursAt(s, t, i + 1);
    }
  }

  predicate IsDigit(c: char) { '0' <= c <= '9' }

  /** The value of a decimal digit. */
  function DigitValue(c: char): int
  {
    c as int - '0' as int
  }

  function DigitChar(d: nat): (c: char)
    requires d < 10
    ensures IsDigit(c) && DigitValue(c) == d
  {
    ('0' as int + d) as char
  }

  /** The number a string of decimal digits denotes, most significant digit
      first. */
  function NatValue(s: string): int
    decreases |s|
  {
    if s == [] then 0 else NatValue(s[..|s| - 1]) * 10 + DigitValue(s[|s| - 1])
  }

  /** The number an optional '-' followed by decimal digits denotes. */
  function DecimalValue(s: string): int
  {
    if s != [] && s[0] == '-' then -NatValue(s[1..]) else NatValue(s)
  }

  /** Decimal rendering of a non-negative integer, as `${n}` prints it: digits
      without a leading zero that read back as `n`; only zero starts with
      '0'. */
  function NatToString(n: nat): (r: string)
    ensures |r| >= 1
    ensures forall i :: 0 <= i < |r| ==> IsDigit(r[i])
    ensures NatValue(r) == n
    ensures r[0] == '0' ==> n == 0
    ensures |r| > 1 ==> r[0] != '0'
  {
    if n < 10 then
      var r := [DigitChar(n)];
      assert r[..0] == [];
      r
    else
      var front := NatToString(n / 10);
      var r := front + [DigitChar(n % 10)];
      assert r[..|r| - 1] == front;
      assert r[0] == front[0];
      r
  }

  /** Decimal rendering of an integer, as `${n}` prints it: a '-' when
      negative, then only digits, without a leading zero; it reads back as `n`, so
      different integers print differently. */
  function IntToString(n: int): (r: string)
    ensures |r| >= 1
    ensures (r[0] == '-') <==> n < 0
    ensures r[0] == '-' || IsDigit(r[0])
    ensures forall i :: (if n < 0 then 1 else 0) <= i < |r| ==> IsDigit(r[i])
    ensures DecimalValue(r) == n
    ensures n >= 0 && |r| > 1 ==> r[0] != '0'
    ensures n < 0 ==> |r| >= 2 && r[1] != '0'
  {
    if n < 0 then
      var digits := NatToString(-n);
      var r := "-" + digits;
      assert r[1..] == digits;
      assert forall i :: 1 <= i < |r| ==> r[i] == digits[i - 1];
      r
    else NatToString(n)
  }

  /** Two integers print alike only when they are equal. */
  lemma IntToStringInjective(a: int, b: int)
    requires IntToString(a) == IntToString(b)
    ensures a == b
  {
    assert DecimalValue(IntToString(a)) == a;
  }

  /** `path.join(projectRoot, 'screenshots', filename)`; the separator is '/'
      and no normalisation of `..` or repeated separators takes place. */
  function ScreenshotPath(root: string, filename: string): (p: string)
    ensures |p| == |root| + |"/screenshots/"| + |filename|
    ensures p[..|root|] == root && p[|p| - |filename|..] == filename
    ensures p[|root|..|root| + |"/screenshots/"|] == "/screenshots/"
  {
    var p := root + "/screenshots/" + filename;
    assert p[..|root|] == root;
    assert p[|root|..|root| + |"/screenshots/"|] == "/screenshots/";
    assert p[|p| - |filename|..] == filename;
    p
  }

  /** Different file names give different paths under the same root. */
  lemma ScreenshotPathInjective(root: string, f: string, g: string)
    requires ScreenshotPath(root, f) == ScreenshotPath(root, g)
    ensures f == g
  {
    var n := |root + "/screenshots/"|;
    assert f == ScreenshotPath(root, f)[n..];
    assert g == ScreenshotPath(root, g)[n..];
  }
}
