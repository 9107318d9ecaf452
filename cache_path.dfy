/**
 * The cache path of a speech item (PlayItem.GetUniqueFilePath) and the
 * text generalisation it may apply first (PlayItem.GetGeneralizedText).
 * Both are pure functions of the item's fields; the string library calls
 * they make (String.Replace, Split-style segmenting) are modelled here too.
 */
module CachePath {
  import opened Wrappers
  import opened Bytes
  import opened Guids

  /**
   * The helpers the path derivation calls, which are not part of this model.
   * Each is deterministic, so a function value stands for it:
   *   getKey      Filters.GetKey(s, false), the file-name sanitiser
   *   utf8        Encoding.UTF8.GetBytes
   *   md5Guid     MD5Helper.GetGuid, the MD5 digest (RFC 1321) as a Guid
   *   crc32String CRC32Helper.GetHashAsString
   */
  datatype Helpers = Helpers(
    getKey: string -> string,
    utf8: string -> seq<byte>,
    md5Guid: seq<byte> -> Guid,
    crc32String: seq<byte> -> string)

  /**
   * The PlayItem fields the path depends on. A null string of the source is
   * the empty string here: the code reads each of these through
   * string.IsNullOrEmpty, `?? ""` or string.Format, none of which tells the two apart.
   */
  datatype SpeechFields = SpeechFields(
    game: string,
    name: string,
    gender: string,
    effect: string,
    text: string,
    group: string,
    xml: string,
    playerName: string,
    playerNameChanged: string,
    playerClass: string)

  const Traveler: string := "Traveler"
  const Separator: string := "\\"
  const DataFolder: string := "Data"
  /** Longest sanitised text kept verbatim as a file name, plus one. */
  const KeyLimit: nat := 64

  // ---------------------------------------------------------------------
  // String.Replace and its reference definition by Split and Join
  // ---------------------------------------------------------------------

  predicate OccursAt(s: string, pattern: string, i: int) {
    0 <= i && i + |pattern| <= |s| && s[i..i + |pattern|] == pattern
  }

  predicate Contains(s: string, pattern: string) {
    exists i | 0 <= i <= |s| :: OccursAt(s, pattern, i)
  }

  /**
   * String.Replace(pattern, replacement): ordinal, scanning left to right and
   * replacing every non-overlapping occurrence. .NET refuses an empty pattern.
   */
  function ReplaceAll(s: string, pattern: string, replacement: string): string
    requires pattern != []
    decreases |s|
  {
    if |s| < |pattern| then s
    else if s[..|pattern|] == pattern then replacement + ReplaceAll(s[|pattern|..], pattern, replacement)
    else [s[0]] + ReplaceAll(s[1..], pattern, replacement)
  }

  /** The pieces of s between the occurrences of sep, found left to right. */
  function Split(s: string, sep: string): (parts: seq<string>)
    requires sep != []
    ensures |parts| >= 1
    decreases |s|
  {
    if |s| < |sep| then [s]
    else if s[..|sep|] == sep then [[]] + Split(s[|sep|..], sep)
    else
      var rest := Split(s[1..], sep);
      [[s[0]] + rest[0]] + rest[1..]
  }

  function Join(parts: seq<string>, sep: string): string
    requires |parts| >= 1
    decreases |parts|
  {
    if |parts| == 1 then parts[0] else parts[0] + sep + Join(parts[1..], sep)
  }

  function TotalLength(parts: seq<string>): nat {
    if parts == [] then 0 else |parts[0]| + TotalLength(parts[1..])
  }

  lemma {:induction false} JoinLength(parts: seq<string>, sep: string)
    requires |parts| >= 1
    ensures |Join(parts, sep)| == TotalLength(parts) + (|parts| - 1) * |sep|
    decreases |parts|
  {
    if |parts| > 1 {
      JoinLength(parts[1..], sep);
    }
  }

  lemma JoinAfterEmpty(parts: seq<string>, sep: string)
    requires |parts| >= 1
    ensures Join([[]] + parts, sep) == sep + Join(parts, sep)
  {
    assert ([[]] + parts)[1..] == parts;
  }

  lemma JoinExtendFirst(c: string, parts: seq<string>, sep: string)
    requires |parts| >= 1
    ensures Join([c + parts[0]] + parts[1..], sep) == c + Join(parts, sep)
  {
    var q := [c + parts[0]] + parts[1..];
    if |parts| > 1 {
      assert q[1..] == parts[1..];
    }
  }

  /** Joining the pieces with the separator gives back the original string. */
  lemma {:induction false} JoinSplit(s: string, sep: string)
    requires sep != []
    ensures Join(Split(s, sep), sep) == s
    decreases |s|
  {
    if |s| < |sep| {
    } else if s[..|sep|] == sep {
      JoinSplit(s[|sep|..], sep);
      JoinAfterEmpty(Split(s[|sep|..], sep), sep);
      assert s == s[..|sep|] + s[|sep|..];
    } else {
      JoinSplit(s[1..], sep);
      JoinExtendFirst([s[0]], Split(s[1..], sep), sep);
      assert s == [s[0]] + s[1..];
    }
  }

  /** No piece contains the separator: every occurrence was cut. */
  lemma {:induction false} SplitPiecesAreFree(s: string, sep: string)
    requires sep != []
    ensures forall k :: 0 <= k < |Split(s, sep)| ==> !Contains(Split(s, sep)[k], sep)
    decreases |s|
  {
    var parts := Split(s, sep);
    if |s| < |sep| {
      assert parts == [s];
    } else if s[..|sep|] == sep {
      SplitPiecesAreFree(s[|sep|..], sep);
      assert parts[1..] == Split(s[|sep|..], sep);
      assert !OccursAt(parts[0], sep, 0);
    } else {
      var rest := Split(s[1..], sep);
      SplitPiecesAreFree(s[1..], sep);
      SplitHeadIsPrefix(s[1..], sep);
      var head := [s[0]] + rest[0];
      assert head[1..] == rest[0];
      assert head <= s;
      assert !OccursAt(s, sep, 0);
      ConsPieceFree(head, s, sep);
      forall k | 1 <= k < |parts| ensures parts[k] == rest[k] {
      }
    }
  }

  /** The first piece is a prefix of the string. */
  lemma {:induction false} SplitHeadIsPrefix(s: string, sep: string)
    requires sep != []
    ensures Split(s, sep)[0] <= s
    decreases |s|
  {
    if |s| >= |sep| && s[..|sep|] != sep {
      var rest := Split(s[1..], sep);
      SplitHeadIsPrefix(s[1..], sep);
      assert [s[0]] + rest[0] == s[..1 + |rest[0]|];
    }
  }

  /**
   * A piece that is a prefix of s, where s does not start with the separator,
   * is free of it when its tail is.
   */
  lemma ConsPieceFree(head: string, s: string, sep: string)
    requires sep != [] && |head| >= 1 && head <= s
    requires !OccursAt(s, sep, 0)
    requires !Contains(head[1..], sep)
    ensures !Contains(head, sep)
  {
    forall i | 0 <= i <= |head| ensures !OccursAt(head, sep, i) {
      if i > 0 && OccursAt(head, sep, i) {
        assert head[1..][i - 1..i - 1 + |sep|] == head[i..i + |sep|];
        assert OccursAt(head[1..], sep, i - 1);
      }
    }
  }

  /** A string splits into itself alone exactly when the separator does not occur in it. */
  lemma {:induction false} SplitAbsent(s: string, sep: string)
    requires sep != []
    ensures Split(s, sep) == [s] <==> !Contains(s, sep)
    decreases |s|
  {
    if !Contains(s, sep) {
      if |s| >= |sep| {
        assert !OccursAt(s, sep, 0);
        assert !Contains(s[1..], sep) by {
          forall i | OccursAt(s[1..], sep, i) ensures false {
            assert s[1..][i..i + |sep|] == s[i + 1..i + 1 + |sep|];
            assert OccursAt(s, sep, i + 1);
          }
        }
        SplitAbsent(s[1..], sep);
        assert [s[0]] + s[1..] == s;
      }
    } else {
      SplitPiecesAreFree(s, sep);
      assert !Contains(Split(s, sep)[0], sep);
    }
  }

  /** A single piece is the whole string. */
  lemma SplitSingle(s: string, sep: string)
    requires sep != []
    ensures |Split(s, sep)| == 1 ==> Split(s, sep) == [s]
  {
    JoinSplit(s, sep);
  }

  /** String.Replace is Join over Split with the replacement as the new separator. */
  lemma {:induction false} ReplaceAllIsJoinSplit(s: string, pattern: string, replacement: string)
    requires pattern != []
    ensures ReplaceAll(s, pattern, replacement) == Join(Split(s, pattern), replacement)
    decreases |s|
  {
    if |s| < |pattern| {
      assert Split(s, pattern) == [s];
    } else if s[..|pattern|] == pattern {
      var tail := s[|pattern|..];
      ReplaceAllIsJoinSplit(tail, pattern, replacement);
      assert ReplaceAll(s, pattern, replacement) == replacement + ReplaceAll(tail, pattern, replacement);
      assert Split(s, pattern) == [[]] + Split(tail, pattern);
      JoinAfterEmpty(Split(tail, pattern), replacement);
    } else {
      var rest := Split(s[1..], pattern);
      ReplaceAllIsJoinSplit(s[1..], pattern, replacement);
      assert ReplaceAll(s, pattern, replacement) == [s[0]] + ReplaceAll(s[1..], pattern, replacement);
      assert Split(s, pattern) == [[s[0]] + rest[0]] + rest[1..];
      JoinExtendFirst([s[0]], rest, replacement);
    }
  }

  /** Replacing a pattern by itself changes nothing. */
  lemma ReplaceAllSelf(s: string, pattern: string)
    requires pattern != []
    ensures ReplaceAll(s, pattern, pattern) == s
  {
    ReplaceAllIsJoinSplit(s, pattern, pattern);
    JoinSplit(s, pattern);
  }

  /** A pattern that does not occur leaves the text as it is. */
  lemma ReplaceAllAbsent(s: string, pattern: string, replacement: string)
    requires pattern != [] && !Contains(s, pattern)
    ensures ReplaceAll(s, pattern, replacement) == s
  {
    ReplaceAllIsJoinSplit(s, pattern, replacement);
    SplitAbsent(s, pattern);
  }

  /**
   * Each replaced occurrence changes the length by |replacement| - |pattern|;
   * the number of occurrences replaced is |Split(s, pattern)| - 1.
   */
  lemma ReplaceAllLength(s: string, pattern: string, replacement: string)
    requires pattern != []
    ensures |ReplaceAll(s, pattern, replacement)|
         == |s| + (|Split(s, pattern)| - 1) * (|replacement| - |pattern|)
  {
    var parts := Split(s, pattern);
    ReplaceAllIsJoinSplit(s, pattern, replacement);
    JoinSplit(s, pattern);
    JoinLength(parts, pattern);
    JoinLength(parts, replacement);
    var k := |parts| - 1;
    assert k * (|replacement| - |pattern|) == k * |replacement| - k * |pattern|;
  }

  /** Whenever the pattern occurs and differs in length from its replacement, the text changes. */
  lemma ReplaceAllChanges(s: string, pattern: string, replacement: string)
    requires pattern != [] && Contains(s, pattern) && |replacement| != |pattern|
    ensures ReplaceAll(s, pattern, replacement) != s
  {
    SplitAbsent(s, pattern);
    SplitSingle(s, pattern);
    ReplaceAllLength(s, pattern, replacement);
    ProductNonZero(|Split(s, pattern)| - 1, |replacement| - |pattern|);
  }

  lemma ProductNonZero(n: int, d: int)
    requires n >= 1 && d != 0
    ensures n * d != 0
  {
  }

  // ---------------------------------------------------------------------
  // GetGeneralizedText
  // ---------------------------------------------------------------------

  /** One guarded step of GetGeneralizedText: skipped when the token is null or empty. */
  function ReplaceToken(text: string, token: string): string {
    if token == [] then text else ReplaceAll(text, token, Traveler)
  }

  /**
   * GetGeneralizedText: the player's name, then the changed player name,
   * then the player's class, each replaced by "Traveler" in the output of the
   * step before.
   */
  function GeneralizedText(f: SpeechFields): string {
    ReplaceToken(ReplaceToken(ReplaceToken(f.text, f.playerName), f.playerNameChanged), f.playerClass)
  }

  lemma GeneralizedTextWithoutPlayer(f: SpeechFields)
    requires f.playerName == [] && f.playerNameChanged == [] && f.playerClass == []
    ensures GeneralizedText(f) == f.text
  {
  }

  /** A token that does not occur in the text it is applied to leaves that text alone. */
  lemma ReplaceTokenAbsent(text: string, token: string)
    requires !Contains(text, token) || token == []
    ensures ReplaceToken(text, token) == text
  {
    if token != [] {
      ReplaceAllAbsent(text, token, Traveler);
    }
  }

  /** With none of the three tokens in the text, generalisation changes nothing. */
  lemma GeneralizedTextNoTokens(f: SpeechFields)
    requires !Contains(f.text, f.playerName) || f.playerName == []
    requires !Contains(f.text, f.playerNameChanged) || f.playerNameChanged == []
    requires !Contains(f.text, f.playerClass) || f.playerClass == []
    ensures GeneralizedText(f) == f.text
  {
    ReplaceTokenAbsent(f.text, f.playerName);
    ReplaceTokenAbsent(f.text, f.playerNameChanged);
    ReplaceTokenAbsent(f.text, f.playerClass);
  }

  /** A prefix in which the pattern cannot start is copied as it is. */
  lemma {:induction false} ReplaceAllKeepsPrefix(a: string, t: string, pattern: string, replacement: string)
    requires pattern != []
    requires pattern[0] !in a
    ensures ReplaceAll(a + t, pattern, replacement) == a + ReplaceAll(t, pattern, replacement)
    decreases |a|
  {
    if a != [] {
      var s := a + t;
      assert s[1..] == a[1..] + t;
      ReplaceAllKeepsPrefix(a[1..], t, pattern, replacement);
      if |s| < |pattern| {
        assert ReplaceAll(t, pattern, replacement) == t;
      } else {
        assert s[..|pattern|][0] == a[0];
        assert ReplaceAll(s, pattern, replacement) == [s[0]] + ReplaceAll(s[1..], pattern, replacement);
        assert [a[0]] + a[1..] == a;
      }
    } else {
      assert a + t == t;
    }
  }

  lemma ReplaceAllAtPattern(t: string, pattern: string, replacement: string)
    requires pattern != []
    ensures ReplaceAll(pattern + t, pattern, replacement) == replacement + ReplaceAll(t, pattern, replacement)
  {
    var s := pattern + t;
    assert s[..|pattern|] == pattern && s[|pattern|..] == t;
  }

  lemma ReplaceAllWhole(p: string, r: string)
    requires p != []
    ensures ReplaceAll(p, p, r) == r
  {
    ReplaceAllAtPattern([], p, r);
    assert p + [] == p;
  }

  /** The pattern, then text it cannot start in, then the pattern again. */
  lemma ReplaceAllPatternTwice(b: string, p: string, r: string)
    requires p != [] && p[0] !in b
    ensures ReplaceAll(p + (b + p), p, r) == r + (b + r)
  {
    ReplaceAllWhole(p, r);
    ReplaceAllKeepsPrefix(b, p, p, r);
    ReplaceAllAtPattern(b + p, p, r);
  }

  /** String.Replace replaces every occurrence, not only the first: here two, around text the pattern cannot start in. */
  lemma ReplaceAllBoth(a: string, b: string, p: string, r: string)
    requires p != []
    requires p[0] !in a && p[0] !in b
    ensures ReplaceAll(a + p + b + p, p, r) == a + r + b + r
  {
    var pbp := p + (b + p);
    ReplaceAllPatternTwice(b, p, r);
    ReplaceAllKeepsPrefix(a, pbp, p, r);
    assert a + p + b + p == a + pbp;
    assert a + (r + (b + r)) == a + r + b + r;
  }

  /** Generalisation replaces every occurrence of the player's name. */
  lemma GeneralizedTextTwice(f: SpeechFields, a: string, b: string)
    requires f.playerName != [] && f.playerName[0] !in a && f.playerName[0] !in b
    requires f.text == a + f.playerName + b + f.playerName
    requires f.playerNameChanged == [] && f.playerClass == []
    ensures GeneralizedText(f) == a + Traveler + b + Traveler
  {
    ReplaceAllBoth(a, b, f.playerName, Traveler);
  }

  lemma GeneralizedTextExample(f: SpeechFields)
    requires f.playerName == "Bob" && f.text == "Hello " + f.playerName + ", says " + f.playerName
    requires f.playerNameChanged == [] && f.playerClass == []
    ensures GeneralizedText(f) == "Hello " + Traveler + ", says " + Traveler
  {
    GeneralizedTextTwice(f, "Hello ", ", says ");
  }

  // ---------------------------------------------------------------------
  // GetUniqueFilePath
  // ---------------------------------------------------------------------

  /** The character folder: "Data" for raw data, otherwise the speaker's sanitised key. */
  function CharFolder(f: SpeechFields, h: Helpers): string {
    if f.name == [] then DataFolder
    else h.getKey(f.name + "_" + f.gender + "_" + f.effect)
  }

  /** A sanitised text key of 64 or more characters is cut to 64 and given the CRC-32 of the whole key. */
  function BoundedKey(key: string, h: Helpers): string {
    if |key| >= KeyLimit then key[..KeyLimit] + "_" + h.crc32String(h.utf8(key)) else key
  }

  /** The file name: the MD5 Guid of the XML for raw data, else the bounded key of the (generalised) text. */
  function FileName(f: SpeechFields, generalize: bool, h: Helpers): string {
    if f.name == [] then FormatN(h.md5Guid(h.utf8(f.xml)))
    else BoundedKey(h.getKey(if generalize then GeneralizedText(f) else f.text), h)
  }

  /** GetUniqueFilePath(generalize): game key, group, character folder and file name, joined by backslashes. */
  function UniqueFilePath(f: SpeechFields, generalize: bool, h: Helpers): string {
    Join([h.getKey(f.game), f.group, CharFolder(f, h), FileName(f, generalize, h)], Separator)
  }

  /** A key shorter than 64 is the file name verbatim; a longer one keeps exactly 64 characters, then "_" and the CRC. */
  lemma BoundedKeyShape(key: string, h: Helpers)
    ensures |key| < KeyLimit ==> BoundedKey(key, h) == key
    ensures |key| >= KeyLimit ==>
      var r := BoundedKey(key, h);
      && |r| == KeyLimit + 1 + |h.crc32String(h.utf8(key))|
      && r[..KeyLimit] == key[..KeyLimit]
      && r[KeyLimit] == '_'
      && r[KeyLimit + 1..] == h.crc32String(h.utf8(key))
  {
  }

  /**
   * Two keys share a file name only if they are equal, or both are long,
   * agree on their first 64 characters and have equal CRC strings.
   */
  lemma BoundedKeyCollision(k1: string, k2: string, h: Helpers)
    requires BoundedKey(k1, h) == BoundedKey(k2, h)
    ensures k1 == k2 || (
      && |k1| >= KeyLimit && |k2| >= KeyLimit
      && k1[..KeyLimit] == k2[..KeyLimit]
      && h.crc32String(h.utf8(k1)) == h.crc32String(h.utf8(k2)))
  {
    var r := BoundedKey(k1, h);
    BoundedKeyShape(k1, h);
    BoundedKeyShape(k2, h);
    if |k1| >= KeyLimit && |k2| >= KeyLimit {
      assert r[KeyLimit + 1..] == h.crc32String(h.utf8(k1));
      assert r[KeyLimit + 1..] == h.crc32String(h.utf8(k2));
    }
  }

  /** Raw data: the file name is the "N" rendering of the MD5 Guid of the UTF-8 XML. */
  lemma DataFileName(f: SpeechFields, generalize: bool, h: Helpers)
    requires f.name == []
    ensures CharFolder(f, h) == DataFolder
    ensures ParseN(FileName(f, generalize, h)) == Some(h.md5Guid(h.utf8(f.xml)))
  {
    FormatNRoundTrip(h.md5Guid(h.utf8(f.xml)));
  }

  /** Raw data: text, speaker details, player fields and the flag do not matter. */
  lemma DataPathIgnoresSpeech(f1: SpeechFields, f2: SpeechFields, g1: bool, g2: bool, h: Helpers)
    requires f1.name == [] && f2.name == []
    requires f1.game == f2.game && f1.group == f2.group && f1.xml == f2.xml
    ensures UniqueFilePath(f1, g1, h) == UniqueFilePath(f2, g2, h)
  {
  }

  /** Without generalisation the player fields do not matter. */
  lemma PlayerFieldsIgnoredUnlessGeneralized(f1: SpeechFields, f2: SpeechFields, h: Helpers)
    requires f1.(playerName := "", playerNameChanged := "", playerClass := "")
          == f2.(playerName := "", playerNameChanged := "", playerClass := "")
    ensures UniqueFilePath(f1, false, h) == UniqueFilePath(f2, false, h)
  {
    assert f1.text == f2.text && f1.name == f2.name;
  }

  // Splitting the path back into its four segments

  predicate NoSeparator(s: string) {
    forall i :: 0 <= i < |s| ==> s[i] != Separator[0]
  }

  lemma SeparatorAt(s: string, i: int)
    requires OccursAt(s, Separator, i)
    ensures s[i] == Separator[0]
  {
    assert s[i..i + 1][0] == s[i];
  }

  lemma NoSeparatorAbsent(s: string)
    requires NoSeparator(s)
    ensures !Contains(s, Separator)
  {
    forall i | 0 <= i <= |s| ensures !OccursAt(s, Separator, i) {
      if OccursAt(s, Separator, i) {
        SeparatorAt(s, i);
      }
    }
  }

  /** Split distributes over a separator-free prefix followed by the separator. */
  lemma {:induction false} SplitAfterSegment(a: string, t: string)
    requires NoSeparator(a)
    ensures Split(a + Separator + t, Separator) == [a] + Split(t, Separator)
    decreases |a|
  {
    var s := a + Separator + t;
    if a == [] {
      assert s[..1] == Separator;
      assert s[1..] == t;
    } else {
      assert s[0] == a[0];
      assert s[1..] == a[1..] + Separator + t;
      SplitAfterSegment(a[1..], t);
      assert [a[0]] + a[1..] == a;
    }
  }

  lemma SplitLastSegment(a: string)
    requires NoSeparator(a)
    ensures Split(a, Separator) == [a]
  {
    NoSeparatorAbsent(a);
    SplitAbsent(a, Separator);
  }

  lemma BoundedKeyNoSeparator(key: string, h: Helpers)
    requires NoSeparator(key)
    requires forall b :: NoSeparator(h.crc32String(b))
    ensures NoSeparator(BoundedKey(key, h))
  {
    if |key| >= KeyLimit {
      var n, crc := BoundedKey(key, h), h.crc32String(h.utf8(key));
      assert n == key[..KeyLimit] + "_" + crc;
      assert NoSeparator(crc);
      forall i | 0 <= i < |n| ensures n[i] != Separator[0] {
        if i < KeyLimit { assert n[i] == key[i]; }
        else if i > KeyLimit { assert n[i] == crc[i - KeyLimit - 1]; }
      }
    }
  }

  lemma FileNameNoSeparator(f: SpeechFields, generalize: bool, h: Helpers)
    requires forall s :: NoSeparator(h.getKey(s))
    requires forall b :: NoSeparator(h.crc32String(b))
    ensures NoSeparator(FileName(f, generalize, h))
  {
    if f.name != [] {
      BoundedKeyNoSeparator(h.getKey(if generalize then GeneralizedText(f) else f.text), h);
    }
  }

  /** Separator-free segments joined by the separator split back into exactly those segments. */
  lemma {:induction false} SplitJoinSegments(parts: seq<string>)
    requires |parts| >= 1
    requires forall i :: 0 <= i < |parts| ==> NoSeparator(parts[i])
    ensures Split(Join(parts, Separator), Separator) == parts
    decreases |parts|
  {
    if |parts| == 1 {
      SplitLastSegment(parts[0]);
    } else {
      assert NoSeparator(parts[0]);
      SplitJoinSegments(parts[1..]);
      SplitAfterSegment(parts[0], Join(parts[1..], Separator));
      assert [parts[0]] + parts[1..] == parts;
    }
  }

  /**
   * If the sanitiser, the group and the CRC string never contain a backslash,
   * the path splits back into exactly the game key, the group, the character
   * folder and the file name.
   */
  lemma PathSegments(f: SpeechFields, generalize: bool, h: Helpers)
    requires forall s :: NoSeparator(h.getKey(s))
    requires forall b :: NoSeparator(h.crc32String(b))
    requires NoSeparator(f.group)
    ensures Split(UniqueFilePath(f, generalize, h), Separator)
         == [h.getKey(f.game), f.group, CharFolder(f, h), FileName(f, generalize, h)]
  {
    var g, c, n := h.getKey(f.game), CharFolder(f, h), FileName(f, generalize, h);
    assert NoSeparator(g) && NoSeparator(c);
    FileNameNoSeparator(f, generalize, h);
    SplitJoinSegments([g, f.group, c, n]);
  }
}
