/** The string built-ins the task list relies on: `String.prototype.trim`, `toLowerCase`
    and `includes`, over `seq<char>`. */
module Text {

  /** ECMAScript WhiteSpace and LineTerminator code points: the characters `trim` removes. */
  predicate IsSpace(c: char)
  {
    c == '\t' || c == '\n' || c == '\U{000B}' || c == '\U{000C}' || c == '\r' || c == ' '
    || c == '\U{00A0}' || c == '\U{1680}' || ('\U{2000}' <= c <= '\U{200A}')
    || c == '\U{2028}' || c == '\U{2029}' || c == '\U{202F}' || c == '\U{205F}'
    || c == '\U{3000}' || c == '\U{FEFF}'
  }

  /** Drops leading white space: the result is the suffix of `s` after a run of spaces,
      and it does not itself start with one. */
  function TrimStart(s: string): (r: string)
    ensures |r| <= |s| && r == s[|s| - |r|..]
    ensures forall i :: 0 <= i < |s| - |r| ==> IsSpace(s[i])
    ensures r != [] ==> !IsSpace(r[0])
  {
    if s != [] && IsSpace(s[0]) then TrimStart(s[1..]) else s
  }

  /** Drops trailing white space: the result is the prefix of `s` before a run of spaces,
      and it does not itself end with one. */
  function TrimEnd(s: string): (r: string)
    ensures |r| <= |s| && r == s[..|r|]
    ensures forall i :: |r| <= i < |s| ==> IsSpace(s[i])
    ensures r != [] ==> !IsSpace(r[|r| - 1])
  {
    if s != [] && IsSpace(s[|s| - 1]) then TrimEnd(s[..|s| - 1]) else s
  }

  /** `String.prototype.trim`. */
  function Trim(s: string): string
  {
    TrimEnd(TrimStart(s))
  }

  /** The trimmed text is empty exactly when every character of the input is white space,
      which is when `createTask` refuses the input. */
  lemma TrimEmptyIffBlank(s: string)
    ensures Trim(s) == [] <==> forall i :: 0 <= i < |s| ==> IsSpace(s[i])
  {
    var t := TrimStart(s);
    if Trim(s) == [] {
      assert t == [];
    } else if forall i :: 0 <= i < |s| ==> IsSpace(s[i]) {
      assert t != [] ==> t[0] == s[|s| - |t|];
    }
  }

  /** Trimming keeps a contiguous piece of the input that neither starts nor ends with
      white space, and removes only white space around it. */
  lemma TrimIsCore(s: string)
    ensures Contains(s, Trim(s))
    ensures Trim(s) != [] ==> !IsSpace(Trim(s)[0]) && !IsSpace(Trim(s)[|Trim(s)| - 1])
  {
    var t := TrimStart(s);
    var a := |s| - |t|;
    var r := Trim(s);
    assert IsPrefix(r, s[a..]);
    ContainsIffOccurrence(s, r);
    if r != [] {
      assert r[0] == t[0];
    }
  }

  /** ASCII case mapping of one character. */
  function LowerChar(c: char): char
  {
    if 'A' <= c <= 'Z' then (c as int - 'A' as int + 'a' as int) as char else c
  }

  /** `String.prototype.toLowerCase`, restricted to the ASCII letters. */
  function Lower(s: string): (r: string)
    ensures |r| == |s|
  {
    seq(|s|, i requires 0 <= i < |s| => LowerChar(s[i]))
  }

  /** Lower-casing leaves no upper-case ASCII letter and is idempotent. */
  lemma LowerIsLower(s: string)
    ensures forall i :: 0 <= i < |s| ==> !('A' <= Lower(s)[i] <= 'Z')
    ensures Lower(Lower(s)) == Lower(s)
  {
  }

  /** `q` is a prefix of `s`. */
  predicate IsPrefix(q: string, s: string)
  {
    |q| <= |s| && s[..|q|] == q
  }

  /** `String.prototype.includes`: `q` occurs in `s` starting at some position. */
  predicate Contains(s: string, q: string)
  {
    IsPrefix(q, s) || (s != [] && Contains(s[1..], q))
  }

  /** `Contains` agrees with the positional definition of an occurrence, both ways. */
  lemma {:induction false} ContainsIffOccurrence(s: string, q: string)
    ensures Contains(s, q) <==> exists k :: 0 <= k <= |s| && IsPrefix(q, s[k..])
  {
    if s == [] {
      if exists k :: 0 <= k <= |s| && IsPrefix(q, s[k..]) {
        var k :| 0 <= k <= |s| && IsPrefix(q, s[k..]);
        assert s[k..] == s;
      }
    } else {
      ContainsIffOccurrence(s[1..], q);
      if Contains(s, q) {
        if IsPrefix(q, s) {
          assert s[0..] == s;
        } else {
          var k :| 0 <= k <= |s[1..]| && IsPrefix(q, s[1..][k..]);
          assert s[1..][k..] == s[k + 1..];
        }
      }
      if exists k :: 0 <= k <= |s| && IsPrefix(q, s[k..]) {
        var k :| 0 <= k <= |s| && IsPrefix(q, s[k..]);
        if k == 0 {
          assert s[k..] == s;
        } else {
          assert s[1..][k - 1..] == s[k..];
        }
      }
    }
  }

  /** Every string includes the empty string. */
  lemma ContainsEmpty(s: string)
    ensures Contains(s, [])
  {
  }
}
