/**
  ASCII models of the Python string methods the scripts rely on:
  `str.lower`, `str.title`, `str.replace` with one-character arguments,
  and the file-name "safe name" built from them.
  Only ASCII letters are cased here; every other character (digits,
  punctuation, emoji) is left exactly as it is.
 */
module Text {
  import opened Collections

  predicate IsUpper(c: char) { 'A' <= c <= 'Z' }

  predicate IsLower(c: char) { 'a' <= c <= 'z' }

  /** A cased character in the sense of `str.title` (ASCII only). */
  predicate IsLetter(c: char) { IsUpper(c) || IsLower(c) }

  function LowerChar(c: char): (r: char)
    ensures !IsUpper(r)
    ensures IsLetter(c) <==> IsLetter(r)
    ensures IsUpper(c) ==> r as int == c as int + 32
    ensures !IsUpper(c) ==> r == c
  {
    if IsUpper(c) then (c as int + 32) as char else c
  }

  function UpperChar(c: char): (r: char)
    ensures !IsLower(r)
    ensures IsLetter(c) <==> IsLetter(r)
    ensures IsLower(c) ==> r as int == c as int - 32
    ensures !IsLower(c) ==> r == c
  {
    if IsLower(c) then (c as int - 32) as char else c
  }

  /** `s.lower()`: every character lowered, nothing moved. */
  function Lower(s: string): (r: string)
    ensures |r| == |s|
    ensures forall i :: 0 <= i < |s| ==> r[i] == LowerChar(s[i])
  {
    seq(|s|, i requires 0 <= i < |s| => LowerChar(s[i]))
  }

  /** Lowering twice is lowering once, so lookups keyed by `trade.lower()` are case-insensitive. */
  lemma LowerIdempotent(s: string)
    ensures Lower(Lower(s)) == Lower(s)
  {
  }

  /** Strings that differ only in letter case lower to the same string. */
  lemma LowerIgnoresCase(s: string, t: string)
    requires |s| == |t|
    requires forall i :: 0 <= i < |s| ==> LowerChar(s[i]) == LowerChar(t[i])
    ensures Lower(s) == Lower(t)
  {
  }

  /** A string without capitals is its own lower case. */
  lemma LowerNoUpper(s: string)
    requires forall i :: 0 <= i < |s| ==> !IsUpper(s[i])
    ensures Lower(s) == s
  {
  }

  /**
    `s.title()`: a letter is upper-cased when the character before it is
    not a letter (or it is the first character) and lower-cased
    otherwise; every other character is copied.
   */
  function Title(s: string): (r: string)
    ensures |r| == |s|
    ensures forall i :: 0 <= i < |s| && !IsLetter(s[i]) ==> r[i] == s[i]
  {
    seq(|s|, i requires 0 <= i < |s| =>
      if !IsLetter(s[i]) then s[i]
      else if i > 0 && IsLetter(s[i - 1]) then LowerChar(s[i])
      else UpperChar(s[i]))
  }

  /**
    `s.title()` scanned left to right, the way CPython computes it:
    `prevLetter` records whether the previous character was a letter.
   */
  function TitleFrom(s: string, prevLetter: bool): (r: string)
    ensures |r| == |s|
  {
    if s == [] then []
    else if IsLetter(s[0]) then
      [if prevLetter then LowerChar(s[0]) else UpperChar(s[0])] + TitleFrom(s[1..], true)
    else
      [s[0]] + TitleFrom(s[1..], false)
  }

  lemma {:induction false} TitleFromAt(s: string, prevLetter: bool, i: nat)
    requires i < |s|
    ensures TitleFrom(s, prevLetter)[i]
         == (if !IsLetter(s[i]) then s[i]
             else if (if i == 0 then prevLetter else IsLetter(s[i - 1])) then LowerChar(s[i])
             else UpperChar(s[i]))
  {
    if i > 0 {
      TitleFromAt(s[1..], IsLetter(s[0]), i - 1);
    }
  }

  /** The scan and the positional description agree: each word starts with a capital and continues in lower case. */
  lemma TitleIsScan(s: string)
    ensures Title(s) == TitleFrom(s, false)
  {
    forall i | 0 <= i < |s|
      ensures Title(s)[i] == TitleFrom(s, false)[i]
    {
      TitleFromAt(s, false, i);
    }
  }

  /** A word in lower case is title-cased by capitalising its first letter. */
  lemma TitleLowerWord(s: string)
    requires |s| > 0
    requires forall i :: 0 <= i < |s| ==> IsLower(s[i])
    ensures Title(s) == [UpperChar(s[0])] + s[1..]
  {
  }

  /** `s.replace(from, to)` for one-character `from` and `to`. */
  function ReplaceChar(s: string, from: char, to: char): (r: string)
    ensures |r| == |s|
    ensures forall i :: 0 <= i < |s| ==> r[i] == (if s[i] == from then to else s[i])
  {
    seq(|s|, i requires 0 <= i < |s| => if s[i] == from then to else s[i])
  }

  /** `s.replace(c, "")`: every `c` dropped, the rest kept in order. */
  function RemoveChar(s: string, c: char): (r: string)
    ensures |r| <= |s|
    ensures forall x :: x in r <==> x in s && x != c
    ensures c !in r
  {
    if s == [] then []
    else if s[0] == c then RemoveChar(s[1..], c)
    else [s[0]] + RemoveChar(s[1..], c)
  }

  /** `RemoveChar` drops exactly the occurrences of `c`: the result is shorter by their number. */
  lemma {:induction false} RemoveCharLength(s: string, c: char)
    ensures |RemoveChar(s, c)| == |s| - multiset(s)[c]
  {
    if s != [] {
      assert s == [s[0]] + s[1..];
      RemoveCharLength(s[1..], c);
    }
  }

  /**
    Dropping a character that occurs in `s` breaks the prefix: `s` with
    its `c`s removed, followed by any text `f` free of `c`, does not begin
    `s` followed by anything, because the first `c` of `s` meets a
    different character.
   */
  lemma {:induction false} RemoveCharBreaksPrefix(s: string, c: char, f: string, t: string)
    requires c in s && f != [] && c !in f
    ensures !(RemoveChar(s, c) + f <= s + t)
  {
    assert s == [s[0]] + s[1..];
    var r := RemoveChar(s[1..], c);
    if s[0] == c {
      assert (r + f)[0] != c by {
        if r != [] { assert r[0] in r; } else { assert f[0] in f; }
      }
      assert (s + t)[0] == c;
    } else {
      RemoveCharBreaksPrefix(s[1..], c, f, t);
      assert RemoveChar(s, c) + f == [s[0]] + (r + f);
      assert s + t == [s[0]] + (s[1..] + t);
      PrefixAfterSameHead(s[0], r + f, s[1..] + t);
    }
  }

  /** Two sequences with the same first element: one begins the other exactly when their tails do. */
  lemma PrefixAfterSameHead<T>(x: T, a: seq<T>, b: seq<T>)
    ensures [x] + a <= [x] + b <==> a <= b
  {
    assert ([x] + a)[1..] == a;
    assert ([x] + b)[1..] == b;
  }

  /** The characters `RemoveChar` keeps stay in their order. */
  lemma {:induction false} RemoveCharKeepsOrder(s: string, c: char)
    ensures IsSubsequence(RemoveChar(s, c), s)
  {
    if s != [] {
      RemoveCharKeepsOrder(s[1..], c);
      if s[0] != c {
        assert ([s[0]] + RemoveChar(s[1..], c))[1..] == RemoveChar(s[1..], c);
      }
    }
  }

  /** Removing a character that does not occur changes nothing. */
  lemma {:induction false} RemoveAbsentChar(s: string, c: char)
    requires c !in s
    ensures RemoveChar(s, c) == s
  {
    if s != [] {
      assert s[0] != c;
      assert c !in s[1..];
      RemoveAbsentChar(s[1..], c);
    }
  }

  /** The file-name stem `name.lower().replace(' ', '_')`. */
  function SafeName(name: string): (r: string)
    ensures |r| == |name|
  {
    ReplaceChar(Lower(name), ' ', '_')
  }

  /** The safe name has no spaces and no capitals: each space became `_`, each letter its lower case. */
  lemma SafeNameChars(name: string)
    ensures ' ' !in SafeName(name)
    ensures forall i :: 0 <= i < |name| ==> !IsUpper(SafeName(name)[i])
    ensures forall i :: 0 <= i < |name| ==> SafeName(name)[i] == (if name[i] == ' ' then '_' else LowerChar(name[i]))
  {
  }

  /** `s.endswith(suffix)`. */
  predicate EndsWith(s: string, suffix: string)
  {
    |suffix| <= |s| && s[|s| - |suffix|..] == suffix
  }

  /** A string ends with whatever was appended last. */
  lemma EndsWithAppend(s: string, suffix: string)
    ensures EndsWith(s + suffix, suffix)
  {
    assert (s + suffix)[|s|..] == suffix;
  }

  /** `t` occurs in `s` starting at position `k`. */
  predicate OccursAt(t: string, s: string, k: int)
  {
    0 <= k && k + |t| <= |s| && s[k..k + |t|] == t
  }

  /** `t in s` for strings: `t` is a substring of `s`. */
  predicate Occurs(t: string, s: string)
  {
    exists k :: 0 <= k <= |s| && OccursAt(t, s, k)
  }
}
