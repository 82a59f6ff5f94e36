/** The string operations the pages use: case mapping (ASCII letters only),
    `trim` with JavaScript's set of white-space characters, and `includes`. */
module Text {

  function LowerChar(c: char): char {
    if 'A' <= c <= 'Z' then (c as int + 32) as char else c
  }

  function UpperChar(c: char): char {
    if 'a' <= c <= 'z' then (c as int - 32) as char else c
  }

  /** `toLowerCase`: no upper-case ASCII letter survives, every other character is kept. */
  function ToLower(s: string): (r: string)
    ensures |r| == |s|
    ensures forall i :: 0 <= i < |r| ==> !('A' <= r[i] <= 'Z')
    ensures forall i :: 0 <= i < |r| && !('A' <= s[i] <= 'Z') ==> r[i] == s[i]
  {
    seq(|s|, i requires 0 <= i < |s| => LowerChar(s[i]))
  }

  /** `toUpperCase`: no lower-case ASCII letter survives, every other character is kept. */
  function ToUpper(s: string): (r: string)
    ensures |r| == |s|
    ensures forall i :: 0 <= i < |r| ==> !('a' <= r[i] <= 'z')
    ensures forall i :: 0 <= i < |r| && !('a' <= s[i] <= 'z') ==> r[i] == s[i]
  {
    seq(|s|, i requires 0 <= i < |s| => UpperChar(s[i]))
  }

  /** The characters `trim` removes: ECMAScript's WhiteSpace and LineTerminator. */
  predicate IsWhitespace(c: char) {
    || c == '\t' || c == '\n' || c == '\U{B}' || c == '\U{C}' || c == '\r' || c == ' '
    || c == '\U{A0}' || c == '\U{1680}' || ('\U{2000}' <= c <= '\U{200A}')
    || c == '\U{2028}' || c == '\U{2029}' || c == '\U{202F}' || c == '\U{205F}'
    || c == '\U{3000}' || c == '\U{FEFF}'
  }

  /** Drops the leading white space: the result is a suffix of `s` that is
      empty or starts with a non-white-space character. */
  function TrimStart(s: string): (r: string)
    ensures exists k :: 0 <= k <= |s| && r == s[k..] && forall i :: 0 <= i < k ==> IsWhitespace(s[i])
    ensures r != [] ==> !IsWhitespace(r[0])
  {
    if s != [] && IsWhitespace(s[0]) then
      var r := TrimStart(s[1..]);
      assert exists k :: 1 <= k <= |s| && r == s[k..] && forall i :: 0 <= i < k ==> IsWhitespace(s[i]) by {
        var k' :| 0 <= k' <= |s[1..]| && r == s[1..][k'..] && forall i :: 0 <= i < k' ==> IsWhitespace(s[1..][i]);
        assert r == s[k' + 1..];
        assert forall i :: 0 <= i < k' + 1 ==> IsWhitespace(s[i]) by {
          forall i | 0 <= i < k' + 1 ensures IsWhitespace(s[i]) {
            if i > 0 { assert s[i] == s[1..][i - 1]; }
          }
        }
      }
      r
    else
      assert s == s[0..];
      s
  }

  /** Drops the trailing white space: the result is a prefix of `s` that is
      empty or ends with a non-white-space character. */
  function TrimEnd(s: string): (r: string)
    ensures exists k :: 0 <= k <= |s| && r == s[..k] && forall i :: k <= i < |s| ==> IsWhitespace(s[i])
    ensures r != [] ==> !IsWhitespace(r[|r| - 1])
  {
    if s != [] && IsWhitespace(s[|s| - 1]) then
      var front := s[..|s| - 1];
      var r := TrimEnd(front);
      assert exists k :: 0 <= k < |s| && r == s[..k] && forall i :: k <= i < |s| ==> IsWhitespace(s[i]) by {
        var k' :| 0 <= k' <= |front| && r == front[..k'] && forall i :: k' <= i < |front| ==> IsWhitespace(front[i]);
        assert r == s[..k'];
        assert forall i :: k' <= i < |s| ==> IsWhitespace(s[i]) by {
          forall i | k' <= i < |s| ensures IsWhitespace(s[i]) {
            if i < |s| - 1 { assert s[i] == front[i]; }
          }
        }
      }
      r
    else
      assert s == s[..|s|];
      s
  }

  /** `trim`. */
  function Trim(s: string): string {
    TrimEnd(TrimStart(s))
  }

  /** `!s.trim()`: the string is empty once trimmed. */
  predicate IsBlank(s: string) {
    Trim(s) == ""
  }

  lemma {:induction false} TrimStartOfWhitespace(s: string)
    requires forall i :: 0 <= i < |s| ==> IsWhitespace(s[i])
    ensures TrimStart(s) == ""
  {
    if s != [] {
      TrimStartOfWhitespace(s[1..]);
    }
  }

  lemma TrimEndKeepsFirst(t: string)
    requires t != [] && !IsWhitespace(t[0])
    ensures TrimEnd(t) != ""
  {
    var e := TrimEnd(t);
    var m :| 0 <= m <= |t| && e == t[..m] && forall i :: m <= i < |t| ==> IsWhitespace(t[i]);
    assert m != 0;
  }

  /** A string is blank exactly when every one of its characters is white space. */
  lemma BlankIffAllWhitespace(s: string)
    ensures IsBlank(s) <==> forall i :: 0 <= i < |s| ==> IsWhitespace(s[i])
  {
    if forall i :: 0 <= i < |s| ==> IsWhitespace(s[i]) {
      TrimStartOfWhitespace(s);
    } else {
      var j :| 0 <= j < |s| && !IsWhitespace(s[j]);
      var t := TrimStart(s);
      var k :| 0 <= k <= |s| && t == s[k..] && forall i :: 0 <= i < k ==> IsWhitespace(s[i]);
      assert k <= j;
      assert t != [];
      TrimEndKeepsFirst(t);
    }
  }

  /** `needle` stands in `hay` at position `i`. */
  predicate OccursAt(hay: string, needle: string, i: int) {
    0 <= i <= |hay| - |needle| && hay[i..i + |needle|] == needle
  }

  /** `hay.includes(needle)`. */
  predicate Includes(hay: string, needle: string)
    decreases |hay|
  {
    needle <= hay || (hay != [] && Includes(hay[1..], needle))
  }

  /** `includes` agrees with the positional definition of a substring. */
  lemma {:induction false} IncludesAt(hay: string, needle: string)
    ensures Includes(hay, needle) <==> exists i :: OccursAt(hay, needle, i)
  {
    if needle <= hay {
      assert OccursAt(hay, needle, 0);
    } else if hay == [] {
    } else {
      IncludesAt(hay[1..], needle);
      if exists i :: OccursAt(hay, needle, i) {
        var i :| OccursAt(hay, needle, i);
        assert i != 0;
        assert OccursAt(hay[1..], needle, i - 1);
      }
      if Includes(hay[1..], needle) {
        var i :| OccursAt(hay[1..], needle, i);
        assert OccursAt(hay, needle, i + 1);
      }
    }
  }

  lemma IncludesEmpty(hay: string)
    ensures Includes(hay, "")
  {
  }
}
