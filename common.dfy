// Shared vocabulary of the QuickChat model: identities, optional values,
// and the few string operations of JavaScript the client and server use
// (String.prototype.trim, toLowerCase, includes, startsWith, and the
// `a || b || c` fallback over possibly-empty strings).

module Common {

  /** A user identity as it travels on the wire (a Mongo ObjectId rendered as a string). */
  type UserId = string

  /** A socket.io connection id. */
  type ConnId = string

  /** A session description (offer or answer), never interpreted by the model. */
  type Sdp = string

  /** An ICE candidate, never interpreted by the model. */
  type Candidate = string

  datatype Option<+T> = None | Some(value: T)

  /** The error-or-value outcome of a request handler: `{success: false, message}` or success. */
  datatype Result<+T> = Ok(value: T) | Fail(message: string)

  /** Every string in `xs` is empty. */
  predicate AllEmpty(xs: seq<string>)
  {
    forall i :: 0 <= i < |xs| ==> xs[i] == ""
  }

  /**
   * The value of the JavaScript expression `xs[0] || xs[1] || ... || fallback`
   * when every operand is a string: the first non-empty string, else the fallback.
   */
  function FirstNonEmpty(xs: seq<string>, fallback: string): (r: string)
    ensures AllEmpty(xs) ==> r == fallback
    ensures forall i :: 0 <= i < |xs| && xs[i] != "" && AllEmpty(xs[..i]) ==> r == xs[i]
    ensures fallback != "" ==> r != ""
  {
    if xs == [] then fallback
    else if xs[0] != "" then xs[0]
    else
      var r := FirstNonEmpty(xs[1..], fallback);
      forall i | 1 <= i < |xs| && xs[i] != "" && AllEmpty(xs[..i])
        ensures r == xs[i]
      {
        assert xs[1..][..i - 1] == xs[1..i];
        assert AllEmpty(xs[1..][..i - 1]);
        assert xs[1..][i - 1] == xs[i];
      }
      r
  }

  /** `list.filter(x => x !== v)`: every occurrence of `v` removed, order kept. */
  function Without(s: seq<string>, v: string): (r: seq<string>)
    ensures v !in r
    ensures forall x :: x != v ==> (x in r <==> x in s)
    ensures |r| <= |s|
    ensures v !in s ==> r == s
    ensures multiset(r) == multiset(s)[v := 0]
  {
    if s == [] then []
    else
      var rest := Without(s[1..], v);
      assert s == [s[0]] + s[1..];
      if s[0] == v then rest else [s[0]] + rest
  }

  /**
   * Filtering distributes over concatenation, so the values that stay keep
   * their relative order.
   */
  lemma {:induction false} WithoutAppend(a: seq<string>, b: seq<string>, v: string)
    ensures Without(a + b, v) == Without(a, v) + Without(b, v)
    decreases |a|
  {
    if a == [] {
      assert a + b == b;
    } else {
      assert (a + b)[0] == a[0];
      assert (a + b)[1..] == a[1..] + b;
      WithoutAppend(a[1..], b, v);
    }
  }
}

module Text {

  /**
   * The characters String.prototype.trim strips: the ECMAScript WhiteSpace
   * set (tab, VT, FF, space, NBSP, ZWNBSP and the Space_Separator category)
   * and the LineTerminator set (LF, CR, LS, PS).
   */
  predicate IsSpace(c: char)
  {
    c == '\t' || c == '\n' || c == '\U{B}' || c == '\U{C}' || c == '\r' || c == ' ' ||
    c == '\U{A0}' || c == '\U{1680}' || ('\U{2000}' <= c <= '\U{200A}') ||
    c == '\U{2028}' || c == '\U{2029}' || c == '\U{202F}' || c == '\U{205F}' ||
    c == '\U{3000}' || c == '\U{FEFF}'
  }

  predicate AllSpace(s: string)
  {
    forall i :: 0 <= i < |s| ==> IsSpace(s[i])
  }

  /** Drops leading white space: the result is a suffix of `s` and starts with a non-space. */
  function TrimStart(s: string): (r: string)
    ensures |r| <= |s| && r == s[|s| - |r|..]
    ensures AllSpace(s[..|s| - |r|])
    ensures r == [] || !IsSpace(r[0])
  {
    if s != [] && IsSpace(s[0]) then
      var r := TrimStart(s[1..]);
      assert s[..|s| - |r|] == [s[0]] + s[1..][..|s| - 1 - |r|];
      r
    else s
  }

  /** Drops trailing white space: the result is a prefix of `s` and ends with a non-space. */
  function TrimEnd(s: string): (r: string)
    ensures |r| <= |s| && r == s[..|r|]
    ensures AllSpace(s[|r|..])
    ensures r == [] || !IsSpace(r[|r| - 1])
  {
    if s != [] && IsSpace(s[|s| - 1]) then
      var r := TrimEnd(s[..|s| - 1]);
      assert s[|r|..] == s[..|s| - 1][|r|..] + [s[|s| - 1]];
      r
    else s
  }

  /**
   * String.prototype.trim: the slice of `s` left once its leading and trailing
   * white space are dropped.
   */
  function Trim(s: string): (r: string)
    ensures exists i, j :: 0 <= i <= j <= |s| && r == s[i..j] && AllSpace(s[..i]) && AllSpace(s[j..])
    ensures r == [] || (!IsSpace(r[0]) && !IsSpace(r[|r| - 1]))
    ensures r == [] <==> AllSpace(s)
  {
    var t := TrimStart(s);
    var r := TrimEnd(t);
    var i, j := |s| - |t|, |s| - |t| + |r|;
    assert s[j..] == t[|r|..];
    assert r == s[i..j];
    assert 0 <= i <= j <= |s| && r == s[i..j] && AllSpace(s[..i]) && AllSpace(s[j..]);
    assert r == [] ==> s == s[..|s| - |t|] + t;
    assert r != [] ==> r[0] == t[0];
    r
  }

  /** ASCII upper-case letters mapped to lower case; every other character unchanged. */
  function LowerChar(c: char): char
  {
    if 'A' <= c <= 'Z' then (c as int + 32) as char else c
  }

  /** String.prototype.toLowerCase, restricted to ASCII letters. */
  function ToLower(s: string): (r: string)
    ensures |r| == |s|
    ensures forall i :: 0 <= i < |s| ==> r[i] == LowerChar(s[i])
  {
    seq(|s|, i requires 0 <= i < |s| => LowerChar(s[i]))
  }

  /** Lower-casing twice is lower-casing once. */
  lemma ToLowerIdempotent(s: string)
    ensures ToLower(ToLower(s)) == ToLower(s)
  {
    var t := ToLower(s);
    assert forall i :: 0 <= i < |s| ==> LowerChar(t[i]) == t[i];
  }

  /** `needle` occurs in `hay` starting at index `i`. */
  ghost predicate OccursAt(hay: string, needle: string, i: int)
  {
    0 <= i && i + |needle| <= |hay| && hay[i..i + |needle|] == needle
  }

  /** String.prototype.includes: some occurrence of `needle` in `hay`. */
  function Contains(hay: string, needle: string): (r: bool)
    ensures r <==> exists i :: OccursAt(hay, needle, i)
    decreases |hay|
  {
    if |needle| > |hay| then false
    else if hay[..|needle|] == needle then
      assert OccursAt(hay, needle, 0);
      true
    else
      var r := Contains(hay[1..], needle);
      assert forall i :: OccursAt(hay[1..], needle, i) ==> OccursAt(hay, needle, i + 1);
      assert forall i :: OccursAt(hay, needle, i) ==> i == 0 || OccursAt(hay[1..], needle, i - 1);
      r
  }

  /** String.prototype.startsWith. */
  function StartsWith(s: string, prefix: string): (r: bool)
    ensures r <==> exists rest :: s == prefix + rest
  {
    if |prefix| <= |s| && s[..|prefix|] == prefix then
      assert s == prefix + s[|prefix|..];
      true
    else false
  }
}
