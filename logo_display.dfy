/** The download of a generated logo: the file name is the business name
    made safe for a file system, followed by a fixed suffix. */
module LogoDisplay {
  import opened Wrappers
  import opened Strings

  const DefaultBusinessName := "logo"
  const FileSuffix := "_flatify_ai.png"

  /** The characters `[a-z0-9_]` matches under the `i` flag: ASCII letters
      of either case, digits and `_`. */
  predicate IsWordChar(c: char) {
    ('a' <= c <= 'z') || ('A' <= c <= 'Z') || ('0' <= c <= '9') || c == '_'
  }

  /** The characters a safe file name is made of. */
  predicate IsSafeChar(c: char) {
    ('a' <= c <= 'z') || ('0' <= c <= '9') || c == '_'
  }

  /** What `replace(/[^a-z0-9_]/gi, '_')` makes of one character: the
      character itself when it is a word character, otherwise one `_` per
      UTF-16 code unit. The pattern has no `u` flag, so it sees the two
      halves of a surrogate pair as two characters and replaces each. */
  function Replacement(c: char): (r: string)
    ensures |r| == Utf16Units(c)
    ensures IsWordChar(c) ==> r == [c]
    ensures !IsWordChar(c) ==> forall k :: 0 <= k < |r| ==> r[k] == '_'
  {
    if IsWordChar(c) then [c] else if Utf16Units(c) == 1 then "_" else "__"
  }

  /** `replace(/[^a-z0-9_]/gi, '_')`: as long as the name in UTF-16 code
      units, made of word characters only; on text inside the Basic
      Multilingual Plane, every other character becomes `_` in place. */
  function ReplaceUnsafe(s: string): (r: string)
    ensures |r| == Utf16Length(s)
    ensures forall k :: 0 <= k < |r| ==> IsWordChar(r[k])
    ensures InBmp(s) ==> forall i :: 0 <= i < |s| ==>
      (IsWordChar(s[i]) ==> r[i] == s[i]) && (!IsWordChar(s[i]) ==> r[i] == '_')
  {
    if s == [] then []
    else
      var head, tail := Replacement(s[0]), ReplaceUnsafe(s[1..]);
      assert InBmp(s) ==> InBmp(s[1..]) && |head| == 1 by {
        if InBmp(s) {
          forall i | 0 <= i < |s[1..]| ensures (s[1..][i] as int) < 0x1_0000 {
            assert s[1..][i] == s[i + 1];
          }
        }
      }
      head + tail
  }

  /** Replacing works character by character: the text can be cut anywhere. */
  lemma {:induction false} ReplaceUnsafeAppend(a: string, b: string)
    ensures ReplaceUnsafe(a + b) == ReplaceUnsafe(a) + ReplaceUnsafe(b)
  {
    if a == [] {
      assert a + b == b;
    } else {
      assert (a + b)[0] == a[0] && (a + b)[1..] == a[1..] + b;
      ReplaceUnsafeAppend(a[1..], b);
    }
  }

  /** Lower case of an ASCII letter; every other character is unchanged. */
  function LowerAscii(c: char): (l: char)
    ensures 'A' <= c <= 'Z' ==> 'a' <= l <= 'z'
    ensures !('A' <= c <= 'Z') ==> l == c
  {
    if 'A' <= c <= 'Z' then (c as int + 32) as char else c
  }

  /** `toLowerCase()` on text that, after `ReplaceUnsafe`, holds only ASCII
      word characters. */
  function ToLower(s: string): (r: string)
    ensures |r| == |s|
    ensures forall i :: 0 <= i < |s| ==> r[i] == LowerAscii(s[i])
  {
    if s == [] then [] else [LowerAscii(s[0])] + ToLower(s[1..])
  }

  /** `safeFileName`: as long as the name in UTF-16 code units, only
      `[a-z0-9_]`; inside the Basic Multilingual Plane every letter and digit
      is kept in place (letters in lower case) and everything else is `_`. */
  function SafeFileName(name: string): (r: string)
    ensures |r| == Utf16Length(name)
    ensures forall i :: 0 <= i < |r| ==> IsSafeChar(r[i])
    ensures InBmp(name) ==> forall i :: 0 <= i < |name| ==> (IsWordChar(name[i]) <==> r[i] != '_' || name[i] == '_')
  {
    ToLower(ReplaceUnsafe(name))
  }

  /** A name that is already safe is left as it is. */
  lemma SafeNameUnchanged(name: string)
    requires forall i :: 0 <= i < |name| ==> IsSafeChar(name[i])
    ensures SafeFileName(name) == name
  {
    assert InBmp(name);
  }

  /** Sanitising twice is sanitising once. */
  lemma SafeFileNameIdempotent(name: string)
    ensures SafeFileName(SafeFileName(name)) == SafeFileName(name)
  {
    SafeNameUnchanged(SafeFileName(name));
  }

  /** `downloadLogo`: the file name of the download, or nothing when there
      is no logo. An absent `businessName` is `"logo"`. */
  function DownloadName(logoSrc: Option<string>, businessName: Option<string>): (r: Option<string>)
    ensures r.Some? <==> logoSrc.Some? && logoSrc.value != ""
    ensures r.Some? ==> |r.value| == Utf16Length(businessName.GetOr(DefaultBusinessName)) + |FileSuffix|
    ensures r.Some? ==> r.value[|r.value| - |FileSuffix|..] == FileSuffix
    ensures r.Some? ==> r.value[..|r.value| - |FileSuffix|] == SafeFileName(businessName.GetOr(DefaultBusinessName))
  {
    if logoSrc.None? || logoSrc.value == "" then None
    else Some(SafeFileName(businessName.GetOr(DefaultBusinessName)) + FileSuffix)
  }

  /** Without a business name the file is `logo_flatify_ai.png`. */
  lemma DefaultDownloadName(logoSrc: string)
    requires logoSrc != ""
    ensures DownloadName(Some(logoSrc), None) == Some("logo_flatify_ai.png")
  {
    var r := DownloadName(Some(logoSrc), None);
    assert r == Some(SafeFileName(DefaultBusinessName) + FileSuffix);
    DefaultNameIsSafe();
    DefaultFileName();
  }

  /** The default name followed by the suffix spells `logo_flatify_ai.png`. */
  lemma DefaultFileName()
    ensures DefaultBusinessName + FileSuffix == "logo_flatify_ai.png"
  {
  }

  /** The default name `logo` is already safe, so sanitising keeps it. */
  lemma DefaultNameIsSafe()
    ensures SafeFileName(DefaultBusinessName) == DefaultBusinessName
  {
    var name := DefaultBusinessName;
    assert name[0] == 'l' && name[1] == 'o' && name[2] == 'g' && name[3] == 'o';
    forall i | 0 <= i < |name| ensures IsSafeChar(name[i]) {
    }
    SafeNameUnchanged(name);
  }

  /** A character outside the Basic Multilingual Plane is two UTF-16 code
      units, so it becomes two underscores. */
  lemma EmojiBecomesTwoUnderscores()
    ensures SafeFileName("\U{1F600}") == "__"
  {
    assert "\U{1F600}"[1..] == [];
    assert ReplaceUnsafe("\U{1F600}") == "__";
  }
}
