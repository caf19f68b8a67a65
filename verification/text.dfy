/**
 The string primitives the report triage is written in: lower-casing,
 substring search (Python's `k in s`), and joining summary lines with
 newlines.  Lower-casing is modelled on ASCII letters only.
 */
module Text {

  /** Lower-case one character: ASCII upper-case letters map to their
      lower-case counterparts, every other character is unchanged. */
  function LowerChar(c: char): char {
    if 'A' <= c <= 'Z' then (c as int - 'A' as int + 'a' as int) as char else c
  }

  /** Upper-case one character, the inverse direction of LowerChar. */
  function UpperChar(c: char): char {
    if 'a' <= c <= 'z' then (c as int - 'a' as int + 'A' as int) as char else c
  }

  /** `s.lower()`: every character lower-cased, position by position. */
  function Lower(s: string): (r: string)
    ensures |r| == |s|
    ensures forall i :: 0 <= i < |s| ==> r[i] == LowerChar(s[i])
  {
    seq(|s|, i requires 0 <= i < |s| => LowerChar(s[i]))
  }

  /** `s.upper()`, used only to state case-insensitivity. */
  function Upper(s: string): (r: string)
    ensures |r| == |s|
    ensures forall i :: 0 <= i < |s| ==> r[i] == UpperChar(s[i])
  {
    seq(|s|, i requires 0 <= i < |s| => UpperChar(s[i]))
  }

  /** Two strings that differ at most in the letter case of their characters. */
  ghost predicate SameIgnoringCase(a: string, b: string) {
    |a| == |b| && forall i :: 0 <= i < |a| ==> LowerChar(a[i]) == LowerChar(b[i])
  }

  /** Strings equal up to letter case have the same lower-cased form. */
  lemma SameIgnoringCaseLower(a: string, b: string)
    requires SameIgnoringCase(a, b)
    ensures Lower(a) == Lower(b)
  {
    forall i | 0 <= i < |a|
      ensures Lower(a)[i] == Lower(b)[i]
    {
      assert LowerChar(a[i]) == LowerChar(b[i]);
    }
  }

  /** Upper-casing, and lower-casing, change a string only in letter case;
      and lower-casing is idempotent. */
  lemma CaseChangesAreCaseOnly(s: string)
    ensures SameIgnoringCase(s, Upper(s))
    ensures SameIgnoringCase(s, Lower(s))
    ensures Lower(Lower(s)) == Lower(s)
  {
    forall i | 0 <= i < |s|
      ensures LowerChar(Upper(s)[i]) == LowerChar(s[i])
      ensures LowerChar(Lower(s)[i]) == LowerChar(s[i])
    {
    }
    SameIgnoringCaseLower(s, Lower(s));
  }

  /** The only characters that lower-case to a given lower-case letter are
      that letter and its upper-case form. */
  lemma LowerCharPreimage(c: char, d: char)
    requires 'a' <= d <= 'z'
    ensures LowerChar(c) == d <==> c == d || c == UpperChar(d)
  {
  }

  /** Python's `k in s` for strings: `k` occurs in `s` at some position. */
  ghost predicate Occurs(s: string, k: string) {
    exists i :: 0 <= i <= |s| && k <= s[i..]
  }

  /** Substring search by scanning start positions left to right; it
      answers exactly the question Occurs asks. */
  function Contains(s: string, k: string): (b: bool)
    ensures b <==> Occurs(s, k)
    decreases |s|
  {
    if k <= s then
      assert s[0..] == s;
      true
    else if |s| == 0 then
      assert forall i :: 0 <= i <= |s| ==> s[i..] == s;
      false
    else
      var b := Contains(s[1..], k);
      assert b ==> Occurs(s, k) by {
        if b {
          var i :| 0 <= i <= |s[1..]| && k <= s[1..][i..];
          assert s[1..][i..] == s[i + 1..];
        }
      }
      assert Occurs(s, k) ==> b by {
        if Occurs(s, k) {
          var i :| 0 <= i <= |s| && k <= s[i..];
          assert i != 0 by { assert s[0..] == s; }
          assert s[1..][i - 1..] == s[i..];
        }
      }
      b
  }

  /** Python's `any(k in s for k in ks)`: the keys are tried in order and
      the first that occurs answers. */
  function ContainsAny(s: string, ks: seq<string>): (b: bool)
    ensures b <==> exists j :: 0 <= j < |ks| && Occurs(s, ks[j])
    decreases |ks|
  {
    if |ks| == 0 then false
    else if Contains(s, ks[0]) then true
    else
      var b := ContainsAny(s, ks[1..]);
      assert b <==> exists j :: 1 <= j < |ks| && Occurs(s, ks[j]) by {
        assert forall j :: 1 <= j < |ks| ==> ks[1..][j - 1] == ks[j];
      }
      b
  }

  /** If any occurrence of `k` is in `s`, each character of `k` is in `s`;
      a key with a character missing from `s` therefore never occurs. */
  lemma OccursHasChars(s: string, k: string, j: nat)
    requires j < |k|
    ensures Occurs(s, k) ==> k[j] in s
  {
    if Occurs(s, k) {
      var i :| 0 <= i <= |s| && k <= s[i..];
      assert s[i..][j] == s[i + j];
    }
  }

  /** A key placed between any two strings occurs in the result. */
  lemma OccursBetween(a: string, k: string, b: string)
    ensures Occurs(a + k + b, k)
  {
    assert (a + k + b)[|a|..] == k + b;
  }

  /** An occurrence of a string is an occurrence of each of its prefixes. */
  lemma OccursPrefix(s: string, k: string, p: string)
    requires p <= k
    ensures Occurs(s, k) ==> Occurs(s, p)
  {
    if Occurs(s, k) {
      var i :| 0 <= i <= |s| && k <= s[i..];
      assert p <= s[i..];
    }
  }

  /** An occurrence in a string is an occurrence, lower-cased, in its
      lower-cased form. */
  lemma OccursLower(s: string, k: string)
    ensures Occurs(s, k) ==> Occurs(Lower(s), Lower(k))
  {
    if Occurs(s, k) {
      var i :| 0 <= i <= |s| && k <= s[i..];
      assert Lower(k) <= Lower(s)[i..] by {
        forall j | 0 <= j < |k|
          ensures Lower(k)[j] == Lower(s)[i..][j]
        {
          assert k[j] == s[i..][j];
        }
      }
    }
  }

  /** A key already in lower case that occurs in a string occurs in its
      lower-cased form. */
  lemma OccursLowerKey(s: string, k: string)
    requires Lower(k) == k
    ensures Occurs(s, k) ==> Occurs(Lower(s), k)
  {
    OccursLower(s, k);
  }

  /** `"\n".join(lines)`. */
  function Join(lines: seq<string>): (r: string)
    ensures |lines| >= 1 ==> lines[0] <= r
    decreases |lines|
  {
    if |lines| == 0 then ""
    else if |lines| == 1 then lines[0]
    else lines[0] + "\n" + Join(lines[1..])
  }

  /** Position of the first newline in `s`, or `|s|` when there is none. */
  function FirstNewline(s: string): (n: nat)
    ensures n <= |s|
    ensures n < |s| ==> s[n] == '\n'
    ensures forall i :: 0 <= i < n ==> s[i] != '\n'
    decreases |s|
  {
    if |s| == 0 || s[0] == '\n' then 0 else 1 + FirstNewline(s[1..])
  }

  /** `s.split("\n")`. */
  function Split(s: string): (lines: seq<string>)
    decreases |s|
  {
    var n := FirstNewline(s);
    if n == |s| then [s] else [s[..n]] + Split(s[n + 1..])
  }

  /** A line of a summary: it holds no newline. */
  predicate IsLine(l: string) {
    '\n' !in l
  }

  /** A newline-free prefix is skipped by the newline search. */
  lemma {:induction false} FirstNewlineSkipsLine(l: string, t: string)
    requires IsLine(l)
    ensures FirstNewline(l + t) == |l| + FirstNewline(t)
    decreases |l|
  {
    if |l| > 0 {
      assert l[0] in l;
      assert (l + t)[1..] == l[1..] + t;
      FirstNewlineSkipsLine(l[1..], t);
    } else {
      assert l + t == t;
    }
  }

  /** Splitting a line followed by a newline and more text yields that
      line, then the split of the rest. */
  lemma SplitAfterLine(l: string, rest: string)
    requires IsLine(l)
    ensures Split(l + "\n" + rest) == [l] + Split(rest)
  {
    var s := l + "\n" + rest;
    FirstNewlineSkipsLine(l, "\n" + rest);
    assert l + ("\n" + rest) == s;
    assert s[..|l|] == l;
    assert s[|l| + 1..] == rest;
  }

  /** Splitting the joined summary text on newlines gives back the summary
      lines, so the rendered text loses nothing. */
  lemma {:induction false} SplitJoin(lines: seq<string>)
    requires |lines| >= 1
    requires forall j :: 0 <= j < |lines| ==> IsLine(lines[j])
    ensures Split(Join(lines)) == lines
    decreases |lines|
  {
    var l := lines[0];
    assert IsLine(l);
    if |lines| == 1 {
      FirstNewlineSkipsLine(l, "");
      assert l + "" == l;
    } else {
      SplitAfterLine(l, Join(lines[1..]));
      SplitJoin(lines[1..]);
      assert [l] + lines[1..] == lines;
    }
  }
}
