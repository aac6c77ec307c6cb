/** The JavaScript string operations the application relies on: whitespace as
    `trim` and the regular-expression class `\s` see it, `trim`, and `split`
    on a one-character separator, and JavaScript's `length`. A string is a
    sequence of Unicode scalar values, one `char` each; where JavaScript
    counts UTF-16 code units, `Utf16Length` counts them. */
module Strings {

  /** JavaScript's WhiteSpace and LineTerminator code points (ECMA-262,
      sections 12.2 and 12.3): what `trim` strips and what `\s` matches. */
  predicate IsWhitespace(c: char) {
    || c == '\t' || c == '\n' || c == '\U{000B}' || c == '\U{000C}' || c == '\r'
    || c == ' ' || c == '\U{00A0}' || c == '\U{1680}'
    || ('\U{2000}' <= c <= '\U{200A}')
    || c == '\U{2028}' || c == '\U{2029}' || c == '\U{202F}' || c == '\U{205F}'
    || c == '\U{3000}' || c == '\U{FEFF}'
  }

  /** Every character is whitespace: `s.trim()` is falsy. */
  predicate IsBlank(s: string) {
    forall i :: 0 <= i < |s| ==> IsWhitespace(s[i])
  }

  /** The number of UTF-16 code units that encode `c`: two (a surrogate
      pair) outside the Basic Multilingual Plane, one inside it. */
  function Utf16Units(c: char): (n: nat)
    ensures n == 1 <==> (c as int) < 0x1_0000
    ensures n == 1 || n == 2
  {
    if (c as int) < 0x1_0000 then 1 else 2
  }

  /** Every character lies in the Basic Multilingual Plane. */
  predicate InBmp(s: string) {
    forall i :: 0 <= i < |s| ==> (s[i] as int) < 0x1_0000
  }

  /** `s.length` in JavaScript: the number of UTF-16 code units. It equals
      the number of characters exactly when all of them lie in the Basic
      Multilingual Plane. */
  function Utf16Length(s: string): (n: nat)
    ensures |s| <= n <= 2 * |s|
    ensures n == |s| <==> InBmp(s)
  {
    if s == [] then 0
    else
      var n := Utf16Units(s[0]) + Utf16Length(s[1..]);
      assert InBmp(s) <==> (s[0] as int) < 0x1_0000 && InBmp(s[1..]) by {
        if (s[0] as int) < 0x1_0000 && InBmp(s[1..]) {
          forall i | 0 <= i < |s| ensures (s[i] as int) < 0x1_0000 {
            if i > 0 { assert s[i] == s[1..][i - 1]; }
          }
        }
      }
      n
  }

  /** Strips leading whitespace; the result is a suffix of `s`. */
  function TrimStart(s: string): (r: string)
    ensures |r| <= |s| && r == s[|s| - |r|..]
    ensures IsBlank(s[..|s| - |r|])
    ensures r == [] || !IsWhitespace(r[0])
  {
    if s != [] && IsWhitespace(s[0]) then TrimStart(s[1..]) else s
  }

  /** Strips trailing whitespace; the result is a prefix of `s`. */
  function TrimEnd(s: string): (r: string)
    ensures |r| <= |s| && r == s[..|r|]
    ensures IsBlank(s[|r|..])
    ensures r == [] || !IsWhitespace(r[|r| - 1])
  {
    if s != [] && IsWhitespace(s[|s| - 1]) then TrimEnd(s[..|s| - 1]) else s
  }

  /** `String.prototype.trim`: the result is the part of `s` between its
      leading and trailing whitespace; it is empty exactly when `s` is blank. */
  function Trim(s: string): (r: string)
    ensures r == [] || (!IsWhitespace(r[0]) && !IsWhitespace(r[|r| - 1]))
    ensures forall c :: c in r ==> c in s
    ensures r == [] <==> IsBlank(s)
  {
    TrimmedEmptyIsBlank(s);
    BlankTrimsEmpty(s);
    TrimmedWithin(s);
    TrimEnd(TrimStart(s))
  }

  lemma TrimmedEmptyIsBlank(s: string)
    ensures TrimEnd(TrimStart(s)) == [] ==> IsBlank(s)
  {
    var t := TrimStart(s);
    if TrimEnd(t) == [] {
      // all of `t` is trailing whitespace, yet `t` cannot start with any
      assert t[0..] == t;
      assert s[..|s|] == s;
    }
  }

  lemma BlankTrimsEmpty(s: string)
    ensures IsBlank(s) ==> TrimEnd(TrimStart(s)) == []
  {
    var t := TrimStart(s);
    if IsBlank(s) {
      BlankSuffix(s, |s| - |t|);
    }
  }

  lemma BlankSuffix(s: string, k: nat)
    requires IsBlank(s) && k <= |s|
    ensures IsBlank(s[k..])
  {
    forall i | 0 <= i < |s| - k ensures IsWhitespace(s[k..][i]) {
      assert s[k..][i] == s[k + i];
    }
  }

  lemma TrimmedWithin(s: string)
    ensures forall c :: c in TrimEnd(TrimStart(s)) ==> c in s
  {
    InnerWithin(s, TrimStart(s), TrimEnd(TrimStart(s)));
  }

  /** A prefix of a suffix holds only characters of the whole. */
  lemma InnerWithin(s: string, t: string, r: string)
    requires |t| <= |s| && t == s[|s| - |t|..]
    requires |r| <= |t| && r == t[..|r|]
    ensures forall c :: c in r ==> c in s
  {
    var k := |s| - |t|;
    forall c | c in r ensures c in s {
      var i :| 0 <= i < |r| && r[i] == c;
      assert s[k + i] == c;
    }
  }

  /** Blank text around a word is what `trim` removes, and all it removes. */
  lemma TrimAround(before: string, word: string, after: string)
    requires IsBlank(before) && IsBlank(after)
    requires word != [] && !IsWhitespace(word[0]) && !IsWhitespace(word[|word| - 1])
    ensures Trim(before + word + after) == word
  {
    TrimStartBlank(before, word + after);
    assert before + word + after == before + (word + after);
    TrimEndBlank(word, after);
  }

  /** A word without surrounding whitespace. */
  predicate IsTrimmed(word: string) {
    word != [] && !IsWhitespace(word[0]) && !IsWhitespace(word[|word| - 1])
  }

  /** `` `${a} ${b}`.trim() `` for parts that are each empty or trimmed:
      the space is kept only between two words. */
  lemma TrimSpaced(a: string, b: string)
    requires a == [] || IsTrimmed(a)
    requires b == [] || IsTrimmed(b)
    ensures Trim(a + " " + b) == if a == [] then b else if b == [] then a else a + " " + b
  {
    var s := a + " " + b;
    if a == [] && b == [] {
      assert s == " " && IsBlank(" ");
    } else if a == [] {
      assert IsBlank(" ") && IsBlank([]);
      assert s == " " + b + [];
      TrimAround(" ", b, []);
    } else if b == [] {
      assert IsBlank(" ") && IsBlank([]);
      assert s == [] + a + " ";
      TrimAround([], a, " ");
    } else {
      assert s[0] == a[0] && s[|s| - 1] == b[|b| - 1];
      assert IsBlank([]) && s == [] + s + [];
      TrimAround([], s, []);
    }
  }

  lemma {:induction false} TrimStartBlank(before: string, t: string)
    requires IsBlank(before) && t != [] && !IsWhitespace(t[0])
    ensures TrimStart(before + t) == t
    decreases |before|
  {
    if before != [] {
      var s := before + t;
      assert s[0] == before[0] && s[1..] == before[1..] + t;
      assert TrimStart(s) == TrimStart(s[1..]);
      TrimStartBlank(before[1..], t);
    } else {
      assert before + t == t;
    }
  }

  lemma {:induction false} TrimEndBlank(t: string, after: string)
    requires IsBlank(after) && t != [] && !IsWhitespace(t[|t| - 1])
    ensures TrimEnd(t + after) == t
    decreases |after|
  {
    if after != [] {
      var shorter := after[..|after| - 1];
      TrimEndBlank(t, shorter);
      assert (t + after)[..|t + after| - 1] == t + shorter;
    } else {
      assert t + after == t;
    }
  }

  /** `"${s}"`: the text between double quotes. */
  function Quoted(s: string): (q: string)
    ensures |q| == |s| + 2 && q[0] == '"' && q[|q| - 1] == '"' && q[1..|q| - 1] == s
  {
    ['"'] + s + ['"']
  }

  /** Position of the first `c` in `s`: `s.indexOf(c)` when it is found. */
  function IndexOf(s: string, c: char): (r: nat)
    requires c in s
    ensures r < |s| && s[r] == c && c !in s[..r]
  {
    if s[0] == c then 0 else
      assert s[1..][IndexOf(s[1..], c)] == s[1 + IndexOf(s[1..], c)];
      assert s[..1 + IndexOf(s[1..], c)] == [s[0]] + s[1..][..IndexOf(s[1..], c)];
      1 + IndexOf(s[1..], c)
  }

  /** The first occurrence is the only one with no occurrence before it. */
  lemma IndexOfUnique(s: string, c: char, j: nat)
    requires j < |s| && s[j] == c && c !in s[..j]
    ensures IndexOf(s, c) == j
  {
    var r := IndexOf(s, c);
    assert forall k :: 0 <= k < j ==> s[..j][k] == s[k];
    assert forall k :: 0 <= k < r ==> s[..r][k] == s[k];
  }

  /** `s.split(sep)` for a one-character separator: the pieces between
      separators, in order; none contains the separator. */
  function Split(s: string, sep: char): (r: seq<string>)
    ensures r != []
    ensures forall i :: 0 <= i < |r| ==> sep !in r[i]
    decreases |s|
  {
    if sep in s then
      var i := IndexOf(s, sep);
      [s[..i]] + Split(s[i + 1..], sep)
    else [s]
  }

  /** `fragments.join(sep)`, the inverse of `Split`. */
  function Join(fragments: seq<string>, sep: char): string
    requires fragments != []
  {
    if |fragments| == 1 then fragments[0]
    else fragments[0] + [sep] + Join(fragments[1..], sep)
  }

  /** Splitting loses nothing: joining the fragments gives back the text. */
  lemma {:induction false} JoinSplit(s: string, sep: char)
    ensures Join(Split(s, sep), sep) == s
    decreases |s|
  {
    if sep in s {
      var i := IndexOf(s, sep);
      JoinSplit(s[i + 1..], sep);
      assert s == s[..i] + [sep] + s[i + 1..];
    }
  }

  /** A separator between two texts separates their fragments, so `Split`
      keeps the fragments in the order of the text. */
  lemma {:induction false} SplitAppend(a: string, b: string, sep: char)
    ensures Split(a + [sep] + b, sep) == Split(a, sep) + Split(b, sep)
    decreases |a|
  {
    var s := a + [sep] + b;
    assert s[|a|] == sep;
    if sep in a {
      var i := IndexOf(a, sep);
      assert s[..i] == a[..i];
      IndexOfUnique(s, sep, i);
      assert s[i + 1..] == a[i + 1..] + [sep] + b;
      SplitAppend(a[i + 1..], b, sep);
    } else {
      assert s[..|a|] == a;
      IndexOfUnique(s, sep, |a|);
      assert s[|a| + 1..] == b;
    }
  }

  /** There is one more fragment than there are separators. */
  lemma {:induction false} SplitCount(s: string, sep: char)
    ensures |Split(s, sep)| == multiset(s)[sep] + 1
    decreases |s|
  {
    if sep in s {
      var i := IndexOf(s, sep);
      var before, after := s[..i], s[i + 1..];
      SplitCount(after, sep);
      assert s == before + [sep] + after;
      assert multiset(s) == multiset(before) + multiset{sep} + multiset(after);
      assert sep !in before;
      assert multiset(before)[sep] == 0;
    } else {
      assert multiset(s)[sep] == 0;
    }
  }
}
