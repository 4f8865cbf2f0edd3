/** JavaScript value semantics the extension's scripts rely on: optional
    (possibly `undefined`) strings, the truthiness used by `a || b`,
    `String.prototype.trim` and `String.prototype.includes`. */
module Js {

  /** A value that may be `undefined` or `null`. */
  datatype Option<T> = None | Some(value: T) {
    function GetOr(default: T): T {
      match this
      case Some(v) => v
      case None => default
    }
  }

  /** Truthiness of an optional string: `undefined`, `null` and `""` are falsy. */
  predicate Truthy(s: Option<string>) {
    s.Some? && s.value != ""
  }

  /** `a || b` on optional strings: the first operand when it is truthy,
      otherwise the second, whatever it is. */
  function Or(a: Option<string>, b: Option<string>): (r: Option<string>)
    ensures r == a || r == b
    ensures Truthy(r) <==> Truthy(a) || Truthy(b)
    ensures Truthy(a) ==> r == a
  {
    if Truthy(a) then a else b
  }

  /** `a || "literal"`: a string in every case. */
  function OrElse(a: Option<string>, fallback: string): (r: string)
    ensures Truthy(a) ==> r == a.value
    ensures !Truthy(a) ==> r == fallback
    ensures fallback != "" ==> r != ""
  {
    if Truthy(a) then a.value else fallback
  }

  /** WhiteSpace and LineTerminator code points of the ECMAScript language
      specification (the characters `String.prototype.trim` removes). */
  const WhitespaceChars: set<char> := {
    '\U{9}', '\U{A}', '\U{B}', '\U{C}', '\U{D}', '\U{20}', '\U{A0}', '\U{1680}',
    '\U{2000}', '\U{2001}', '\U{2002}', '\U{2003}', '\U{2004}', '\U{2005}',
    '\U{2006}', '\U{2007}', '\U{2008}', '\U{2009}', '\U{200A}',
    '\U{2028}', '\U{2029}', '\U{202F}', '\U{205F}', '\U{3000}', '\U{FEFF}'
  }

  /** `c` is removed by `trim`. */
  predicate IsWhitespace(c: char) {
    c in WhitespaceChars
  }

  predicate AllWhitespace(s: string) {
    forall i :: 0 <= i < |s| ==> IsWhitespace(s[i])
  }

  /** Drops leading whitespace: the result is a suffix of `s`, what was
      dropped is whitespace, and what is left does not start with it. */
  function TrimStart(s: string): (r: string)
    ensures |r| <= |s| && r == s[|s| - |r|..]
    ensures AllWhitespace(s[..|s| - |r|])
    ensures r == [] || !IsWhitespace(r[0])
    decreases |s|
  {
    if |s| > 0 && IsWhitespace(s[0]) then TrimStart(s[1..]) else s
  }

  /** Drops trailing whitespace: the result is a prefix of `s`, what was
      dropped is whitespace, and what is left does not end with it. */
  function TrimEnd(s: string): (r: string)
    ensures |r| <= |s| && r == s[..|r|]
    ensures AllWhitespace(s[|r|..])
    ensures r == [] || !IsWhitespace(r[|r| - 1])
    decreases |s|
  {
    if |s| > 0 && IsWhitespace(s[|s| - 1]) then TrimEnd(s[..|s| - 1]) else s
  }

  /** `String.prototype.trim`: drops the leading and then the trailing whitespace. */
  function Trim(s: string): (r: string)
    ensures |r| <= |s|
    ensures r == [] || (!IsWhitespace(r[0]) && !IsWhitespace(r[|r| - 1]))
    ensures r == [] <==> AllWhitespace(s)
  {
    var a := TrimStart(s);
    var r := TrimEnd(a);
    assert r == [] ==> AllWhitespace(s) by {
      if r == [] {
        assert a == [];
        assert s[..|s|] == s;
      }
    }
    r
  }

  /** `t` is the slice of `s` starting at `i`, with only whitespace around it. */
  predicate SurroundedByWhitespace(s: string, t: string, i: int) {
    0 <= i <= |s| - |t| && t == s[i..i + |t|]
    && AllWhitespace(s[..i]) && AllWhitespace(s[i + |t|..])
  }

  /** The trimmed text is a slice of the original with whitespace on both sides. */
  lemma TrimIsSlice(s: string)
    ensures SurroundedByWhitespace(s, Trim(s), |s| - |TrimStart(s)|)
  {
    assert Trim(s) == TrimEnd(TrimStart(s));
    WhitespaceAroundSlice(s, TrimStart(s), Trim(s));
  }

  /** A prefix `r` of a suffix `a` of `s`, with whitespace cut off on both
      sides, is a slice of `s` with whitespace around it. */
  lemma WhitespaceAroundSlice(s: string, a: string, r: string)
    requires |a| <= |s| && a == s[|s| - |a|..] && AllWhitespace(s[..|s| - |a|])
    requires |r| <= |a| && r == a[..|r|] && AllWhitespace(a[|r|..])
    ensures SurroundedByWhitespace(s, r, |s| - |a|)
  {
    var i := |s| - |a|;
    assert s[i..][..|r|] == s[i..i + |r|];
    assert s[i..][|r|..] == s[i + |r|..];
  }

  /** Trimming twice is trimming once. */
  lemma TrimIdempotent(s: string)
    ensures Trim(Trim(s)) == Trim(s)
  {
    var t := Trim(s);
    assert TrimStart(t) == t;
    assert TrimEnd(t) == t;
  }

  /** `sub` occurs in `s` at position `i`. */
  predicate OccursAt(s: string, sub: string, i: int) {
    0 <= i <= |s| - |sub| && s[i..i + |sub|] == sub
  }

  /** `String.prototype.includes`, by scanning the start positions of `s` in order. */
  function Includes(s: string, sub: string): bool
    decreases |s|
  {
    if |s| < |sub| then false
    else if s[..|sub|] == sub then true
    else Includes(s[1..], sub)
  }

  /** `Includes` holds exactly when `sub` occurs at some position of `s`. */
  lemma {:induction false} IncludesIff(s: string, sub: string)
    ensures Includes(s, sub) <==> exists i :: OccursAt(s, sub, i)
    decreases |s|
  {
    if |s| < |sub| {
    } else if s[..|sub|] == sub {
      assert OccursAt(s, sub, 0);
    } else {
      IncludesIff(s[1..], sub);
      if Includes(s, sub) {
        var i :| OccursAt(s[1..], sub, i);
        assert s[1..][i..i + |sub|] == s[i + 1..i + 1 + |sub|];
        assert OccursAt(s, sub, i + 1);
      } else {
        forall i | OccursAt(s, sub, i) ensures false {
          assert i > 0;
          assert s[1..][i - 1..i - 1 + |sub|] == s[i..i + |sub|];
          assert OccursAt(s[1..], sub, i - 1);
        }
      }
    }
  }

  /** A character of `sub` occurs in any string that includes `sub`. */
  lemma IncludesKeepsChars(s: string, sub: string, c: char)
    requires Includes(s, sub) && c in sub
    ensures c in s
  {
    IncludesIff(s, sub);
    var i :| OccursAt(s, sub, i);
    var k :| 0 <= k < |sub| && sub[k] == c;
    assert s[i + k] == s[i..i + |sub|][k];
  }

  /** A string that includes `b`, where `b` includes `c`, includes `c`. */
  lemma IncludesTrans(a: string, b: string, c: string)
    requires Includes(a, b) && Includes(b, c)
    ensures Includes(a, c)
  {
    IncludesIff(a, b);
    IncludesIff(b, c);
    var i :| OccursAt(a, b, i);
    var j :| OccursAt(b, c, j);
    forall m | 0 <= m < |c| ensures a[i + j + m] == c[m] {
      assert c[m] == b[j..j + |c|][m] == b[j + m];
      assert b[j + m] == a[i..i + |b|][j + m] == a[i + j + m];
    }
    assert a[i + j..i + j + |c|] == c;
    assert OccursAt(a, c, i + j);
    IncludesIff(a, c);
  }

  /** A string includes each piece it is glued together from. */
  lemma IncludesMiddle(x: string, y: string, z: string)
    ensures Includes(x + y + z, y)
  {
    assert (x + y + z)[|x|..|x| + |y|] == y;
    assert OccursAt(x + y + z, y, |x|);
    IncludesIff(x + y + z, y);
  }

  /** A string lacking one of the characters of `sub` does not include `sub`. */
  lemma MissingChar(s: string, sub: string, k: nat)
    requires k < |sub| && sub[k] !in s
    ensures !Includes(s, sub)
  {
    if Includes(s, sub) {
      IncludesKeepsChars(s, sub, sub[k]);
    }
  }

  /** Every string includes itself. */
  lemma IncludesSelf(s: string)
    ensures Includes(s, s)
  {
    assert s[..|s|] == s;
  }
}
