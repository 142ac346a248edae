/**
 * The string operations the chat helpers rely on: Python's `str.lower`,
 * `str.title`, `str.isalpha`, `str.split()` and the `in` operator on strings,
 * restricted to ASCII text.
 */
module Text {

  /** `str.isspace` on ASCII: tab, line feed, vertical tab, form feed,
      carriage return, the four separators 0x1C-0x1F, and the space. */
  predicate IsSpace(c: char) {
    var n := c as int;
    n == 32 || 9 <= n <= 13 || 28 <= n <= 31
  }

  predicate IsUpper(c: char) { 'A' <= c <= 'Z' }

  predicate IsLower(c: char) { 'a' <= c <= 'z' }

  /** An ASCII letter; these are exactly the cased characters of ASCII. */
  predicate IsAlpha(c: char) { IsUpper(c) || IsLower(c) }

  function Lower(c: char): (r: char)
    ensures !IsUpper(r)
    ensures IsAlpha(r) <==> IsAlpha(c)
    ensures !IsUpper(c) ==> r == c
  {
    if IsUpper(c) then (c as int + 32) as char else c
  }

  function Upper(c: char): (r: char)
    ensures !IsLower(r)
    ensures IsAlpha(r) <==> IsAlpha(c)
    ensures !IsLower(c) ==> r == c
  {
    if IsLower(c) then (c as int - 32) as char else c
  }

  /** `s.lower()` */
  function LowerStr(s: string): (r: string)
    ensures |r| == |s|
    ensures forall i :: 0 <= i < |s| ==> r[i] == Lower(s[i])
  {
    if |s| == 0 then [] else [Lower(s[0])] + LowerStr(s[1..])
  }

  /** `s.isalpha()`: non-empty and made of letters only. */
  predicate AllAlpha(s: string) {
    |s| > 0 && forall i :: 0 <= i < |s| ==> IsAlpha(s[i])
  }

  /** `sub in s`: `sub` occurs somewhere in `s` (the empty string occurs everywhere). */
  predicate Contains(s: string, sub: string)
    decreases |s|
  {
    sub <= s || (|s| > 0 && Contains(s[1..], sub))
  }

  /** `sub` occurs in `s` starting at index `i`. */
  predicate OccursAt(s: string, sub: string, i: int) {
    0 <= i && i + |sub| <= |s| && s[i..i + |sub|] == sub
  }

  /** The recursive scan finds `sub` exactly when it occurs at some index. */
  lemma {:induction false} ContainsIff(s: string, sub: string)
    ensures Contains(s, sub) <==> exists i :: OccursAt(s, sub, i)
    decreases |s|
  {
    if sub <= s {
      assert OccursAt(s, sub, 0);
    } else if |s| > 0 {
      ContainsIff(s[1..], sub);
      if Contains(s[1..], sub) {
        var i :| OccursAt(s[1..], sub, i);
        assert s[1..][i..i + |sub|] == s[i + 1..i + 1 + |sub|];
        assert OccursAt(s, sub, i + 1);
      }
      forall i | OccursAt(s, sub, i)
        ensures OccursAt(s[1..], sub, i - 1)
      {
        assert s[1..][i - 1..i - 1 + |sub|] == s[i..i + |sub|];
      }
    }
  }

  /** `s.title()` on ASCII: a letter is upper-cased when the character before
      it is not a letter, and lower-cased when it is. */
  function Title(s: string): (r: string)
    ensures |r| == |s|
    ensures forall i :: 0 <= i < |s| ==>
      r[i] == if i > 0 && IsAlpha(s[i - 1]) then Lower(s[i]) else Upper(s[i])
  {
    TitleFrom(s, false)
  }

  /** `Title` of a suffix, given whether the character before it is a letter. */
  function TitleFrom(s: string, afterLetter: bool): (r: string)
    ensures |r| == |s|
    ensures forall i :: 0 <= i < |s| ==>
      r[i] == if (if i == 0 then afterLetter else IsAlpha(s[i - 1])) then Lower(s[i]) else Upper(s[i])
  {
    if |s| == 0 then []
    else [if afterLetter then Lower(s[0]) else Upper(s[0])] + TitleFrom(s[1..], IsAlpha(s[0]))
  }

  /** After a letter, a run of letters is simply lower-cased. */
  lemma {:induction false} TitleFromLetters(s: string)
    requires forall i :: 0 <= i < |s| ==> IsAlpha(s[i])
    ensures TitleFrom(s, true) == LowerStr(s)
  {
    if |s| > 0 {
      TitleFromLetters(s[1..]);
    }
  }

  /** The title case of an alphabetic word is its first letter upper-cased
      followed by the rest lower-cased. */
  lemma TitleOfWord(w: string)
    requires AllAlpha(w)
    ensures Title(w) == [Upper(w[0])] + LowerStr(w[1..])
    ensures AllAlpha(Title(w)) && IsUpper(Title(w)[0])
    ensures forall i :: 1 <= i < |w| ==> IsLower(Title(w)[i])
  {
    TitleFromLetters(w[1..]);
  }

  /** Length of the leading run of non-whitespace characters. */
  function WordLength(s: string): (n: nat)
    ensures n <= |s|
    ensures forall i :: 0 <= i < n ==> !IsSpace(s[i])
    ensures n == |s| || IsSpace(s[n])
  {
    if |s| == 0 || IsSpace(s[0]) then 0 else 1 + WordLength(s[1..])
  }

  /** `s.split()`: the maximal runs of non-whitespace characters, in order. */
  function Split(s: string): (words: seq<string>)
    ensures forall w :: w in words ==> |w| > 0 && forall i :: 0 <= i < |w| ==> !IsSpace(w[i])
    decreases |s|
  {
    if |s| == 0 then []
    else if IsSpace(s[0]) then Split(s[1..])
    else
      var n := WordLength(s);
      [s[..n]] + Split(s[n..])
  }

  /** The words glued back together without separators. */
  function Concat(words: seq<string>): string {
    if |words| == 0 then [] else words[0] + Concat(words[1..])
  }

  /** `s` with every whitespace character dropped. */
  function RemoveSpaces(s: string): (r: string)
    ensures |r| <= |s|
  {
    if |s| == 0 then [] else (if IsSpace(s[0]) then [] else [s[0]]) + RemoveSpaces(s[1..])
  }

  lemma {:induction false} RemoveSpacesAppend(a: string, b: string)
    ensures RemoveSpaces(a + b) == RemoveSpaces(a) + RemoveSpaces(b)
  {
    if |a| > 0 {
      assert (a + b)[1..] == a[1..] + b;
      RemoveSpacesAppend(a[1..], b);
    } else {
      assert a + b == b;
    }
  }

  lemma {:induction false} RemoveSpacesOfWord(w: string)
    requires forall i :: 0 <= i < |w| ==> !IsSpace(w[i])
    ensures RemoveSpaces(w) == w
  {
    if |w| > 0 {
      RemoveSpacesOfWord(w[1..]);
    }
  }

  /** Splitting loses exactly the whitespace: the words, glued together,
      are the input with its whitespace removed. */
  lemma {:induction false} SplitKeepsNonSpace(s: string)
    ensures Concat(Split(s)) == RemoveSpaces(s)
    decreases |s|
  {
    if |s| == 0 {
    } else if IsSpace(s[0]) {
      SplitKeepsNonSpace(s[1..]);
    } else {
      var n := WordLength(s);
      SplitKeepsNonSpace(s[n..]);
      var ws := [s[..n]] + Split(s[n..]);
      assert ws[1..] == Split(s[n..]);
      assert Concat(ws) == s[..n] + Concat(Split(s[n..]));
      RemoveSpacesOfWord(s[..n]);
      assert s == s[..n] + s[n..];
      RemoveSpacesAppend(s[..n], s[n..]);
    }
  }

  /** The leading run of non-whitespace is the one that stops at the first
      whitespace character. */
  lemma WordLengthUnique(s: string, k: nat)
    requires k <= |s| && (k == |s| || IsSpace(s[k]))
    requires forall i :: 0 <= i < k ==> !IsSpace(s[i])
    ensures WordLength(s) == k
  {
  }

  /** `split()` cuts at every whitespace character: the words of `a`, a
      whitespace character and `b` are the words of `a` followed by those of `b`. */
  lemma {:induction false} SplitAtSpace(a: string, c: char, b: string)
    requires IsSpace(c)
    ensures Split(a + [c] + b) == Split(a) + Split(b)
    decreases |a|
  {
    var s := a + [c] + b;
    if |a| == 0 {
      assert s == [c] + b;
      assert s[1..] == b;
      assert Split(s) == Split(b);
      assert Split(a) + Split(b) == Split(b);
    } else if IsSpace(a[0]) {
      assert s[1..] == a[1..] + [c] + b;
      SplitAtSpace(a[1..], c, b);
      assert Split(s) == Split(s[1..]);
      assert Split(a) == Split(a[1..]);
    } else {
      var m := WordLength(a);
      forall i | 0 <= i < m
        ensures !IsSpace(s[i])
      {
        assert s[i] == a[i];
      }
      assert m == |s| || IsSpace(s[m]) by {
        if m < |a| {
          assert s[m] == a[m];
        } else {
          assert s[m] == c;
        }
      }
      WordLengthUnique(s, m);
      assert s[..m] == a[..m];
      assert s[m..] == a[m..] + [c] + b;
      SplitAtSpace(a[m..], c, b);
      calc {
        Split(s);
        [s[..m]] + Split(s[m..]);
        [a[..m]] + (Split(a[m..]) + Split(b));
        ([a[..m]] + Split(a[m..])) + Split(b);
        Split(a) + Split(b);
      }
    }
  }

  /** A non-empty string with no whitespace is a single word. */
  lemma {:induction false} SplitOfWord(w: string)
    requires |w| > 0 && forall i :: 0 <= i < |w| ==> !IsSpace(w[i])
    ensures Split(w) == [w]
  {
    var n := WordLength(w);
    assert n == |w|;
    assert w[n..] == [];
    assert w[..n] == w;
  }
}
