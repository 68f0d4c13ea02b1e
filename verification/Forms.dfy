/** What well-formed names look like, letter by letter: session ids and how they are minted, aliases,
    home paths, and topic names in UTF-8. */
module Forms {
  import opened Addressing

  // ---------------------------------------------------------------- session ids and aliases

  /** The url-safe base64 alphabet, Table 2 of RFC 4648. */
  function Letter64(n: nat): char
    requires n < 64
  {
    if n < 26 then 'A' + n as char
    else if n < 52 then 'a' + (n - 26) as char
    else if n < 62 then '0' + (n - 52) as char
    else if n == 62 then '-' else '_'
  }

  ghost predicate UrlSafe(c: char) {
    exists n: nat :: n < 64 && Letter64(n) == c
  }

  /** A letter, digit, underscore or hyphen, by ASCII code. */
  predicate AliasLetter(c: char) {
    97 <= c as int <= 122 || 48 <= c as int <= 57 || c as int == 95 || c as int == 45
  }

  /** The word, perhaps followed by one newline. */
  predicate Reads(s: string, word: string) {
    s == word || s == word + "\n"
  }

  ghost predicate IsToken(token: string) {
    |token| == 16 && forall i :: 0 <= i < |token| ==> UrlSafe(token[i])
  }

  predicate IsWord(word: string) {
    1 <= |word| <= 64 && 97 <= word[0] as int <= 122 && forall i :: 1 <= i < |word| ==> AliasLetter(word[i])
  }

  ghost predicate SidForm(s: string) {
    exists token :: IsToken(token) && Reads(s, "sess_" + token)
  }

  ghost predicate AliasForm(s: string) {
    !("sess_" <= s) && exists word :: IsWord(word) && Reads(s, word)
  }

  lemma LetterIff(c: char)
    ensures IsBase64Url(c) <==> UrlSafe(c)
  {
    if IsLower(c) {
      assert Letter64(26 + (c as int - 'a' as int)) == c;
    } else if 'A' <= c <= 'Z' {
      assert Letter64(c as int - 'A' as int) == c;
    } else if IsDigit(c) {
      assert Letter64(52 + (c as int - '0' as int)) == c;
    } else {
      assert Letter64(62) == '-' && Letter64(63) == '_';
    }
  }

  /** The checks accept exactly the strings of these forms. */
  lemma SidFormIff(s: string)
    ensures IsValidSid(s) <==> SidForm(s)
  {
    var word := DropNewline(s);
    assert Reads(s, word) by { ReadsBack(s); }
    forall c {
      LetterIff(c);
    }
    if SidShape(word) {
      var token := word[5..];
      assert word == "sess_" + token;
      assert forall i :: 0 <= i < |token| ==> token[i] == word[5 + i];
      assert IsToken(token);
    }
    if SidForm(s) {
      var token :| IsToken(token) && Reads(s, "sess_" + token);
      assert UrlSafe(token[15]) && IsBase64Url(token[15]);
      assert DropNewline(s) == "sess_" + token;
      assert forall i :: 5 <= i < 21 ==> ("sess_" + token)[i] == token[i - 5];
    }
    hide UrlSafe, IsBase64Url;
  }

  lemma ReadsBack(s: string)
    ensures Reads(s, DropNewline(s))
  {
    if s != "" && s[|s| - 1] == '\n' {
      assert s == s[..|s| - 1] + "\n";
    }
  }

  lemma AliasFormIff(s: string)
    ensures IsValidAlias(s) <==> AliasForm(s)
  {
    hide Reads, IsWord, AliasShape, DropNewline;
    ReadsBack(s);
    WordIff(DropNewline(s));
    if AliasForm(s) {
      var word :| IsWord(word) && Reads(s, word);
      WordReadsBack(s, word);
    }
  }

  lemma WordIff(word: string)
    ensures AliasShape(word) <==> IsWord(word)
  {
  }

  lemma WordReadsBack(s: string, word: string)
    requires IsWord(word) && Reads(s, word)
    ensures DropNewline(s) == word
  {
    assert word[|word| - 1] != '\n';
    hide IsWord;
  }

  // ---------------------------------------------------------------- minting session ids

  type Byte = b: int | 0 <= b < 256

  /** Three bytes as four letters. */
  function Quad(a: Byte, b: Byte, c: Byte): string {
    var n := a * 65536 + b * 256 + c;
    [Letter64(n / 262144), Letter64(n / 4096 % 64), Letter64(n / 64 % 64), Letter64(n % 64)]
  }

  /** A fresh session id from twelve random bytes. */
  function MintSid(bytes: seq<Byte>): string
    requires |bytes| == 12
  {
    "sess_" + Quad(bytes[0], bytes[1], bytes[2]) + Quad(bytes[3], bytes[4], bytes[5])
      + Quad(bytes[6], bytes[7], bytes[8]) + Quad(bytes[9], bytes[10], bytes[11])
  }

  lemma Letter64Injective(m: nat, n: nat)
    requires m < 64 && n < 64 && Letter64(m) == Letter64(n)
    ensures m == n
  {
  }

  lemma QuadInjective(a: Byte, b: Byte, c: Byte, x: Byte, y: Byte, z: Byte)
    requires Quad(a, b, c) == Quad(x, y, z)
    ensures a == x && b == y && c == z
  {
    var m, n := a * 65536 + b * 256 + c, x * 65536 + y * 256 + z;
    var s, t := Quad(a, b, c), Quad(x, y, z);
    assert s[0] == t[0] && s[1] == t[1] && s[2] == t[2] && s[3] == t[3];
    SameLetters(m, n);
    assert m == n;
  }

  lemma SameLetters(m: nat, n: nat)
    requires m / 262144 < 64 && n / 262144 < 64 && Letter64(m / 262144) == Letter64(n / 262144)
    requires Letter64(m / 4096 % 64) == Letter64(n / 4096 % 64) && Letter64(m / 64 % 64) == Letter64(n / 64 % 64)
    requires Letter64(m % 64) == Letter64(n % 64)
    ensures m == n
  {
    hide Letter64;
    Letter64Injective(m / 262144, n / 262144);
    Letter64Injective(m / 4096 % 64, n / 4096 % 64);
    Letter64Injective(m / 64 % 64, n / 64 % 64);
    Letter64Injective(m % 64, n % 64);
    FourDigits(m);
    FourDigits(n);
  }

  lemma FourDigits(n: nat)
    ensures n == n / 262144 * 262144 + n / 4096 % 64 * 4096 + n / 64 % 64 * 64 + n % 64
  {
    assert n / 64 / 64 == n / 4096 && n / 4096 / 64 == n / 262144;
  }

  /** Every minted id is accepted as a session id, and different random bytes give different ids. */
  lemma MintedSids(bytes: seq<Byte>, others: seq<Byte>)
    requires |bytes| == |others| == 12
    ensures IsValidSid(MintSid(bytes))
    ensures MintSid(bytes) == MintSid(others) ==> bytes == others
  {
    hide *;
    MintedToken(bytes);
    MintedToken(others);
    SidFormIff(MintSid(bytes));
    if MintSid(bytes) == MintSid(others) {
      var token, other := MintSid(bytes)[5..], MintSid(others)[5..];
      assert token == other;
      QuadInjective(bytes[0], bytes[1], bytes[2], others[0], others[1], others[2]);
      QuadInjective(bytes[3], bytes[4], bytes[5], others[3], others[4], others[5]);
      QuadInjective(bytes[6], bytes[7], bytes[8], others[6], others[7], others[8]);
      QuadInjective(bytes[9], bytes[10], bytes[11], others[9], others[10], others[11]);
    }
  }

  lemma MintedToken(bytes: seq<Byte>)
    requires |bytes| == 12
    ensures SidForm(MintSid(bytes)) && |MintSid(bytes)| == 21
    ensures var token := MintSid(bytes)[5..];
      && |token| == 16
      && token[..4] == Quad(bytes[0], bytes[1], bytes[2]) && token[4..8] == Quad(bytes[3], bytes[4], bytes[5])
      && token[8..12] == Quad(bytes[6], bytes[7], bytes[8]) && token[12..] == Quad(bytes[9], bytes[10], bytes[11])
  {
    QuadSafe(bytes[0], bytes[1], bytes[2]);
    QuadSafe(bytes[3], bytes[4], bytes[5]);
    QuadSafe(bytes[6], bytes[7], bytes[8]);
    QuadSafe(bytes[9], bytes[10], bytes[11]);
    hide Quad, UrlSafe;
    var token := MintSid(bytes)[5..];
    assert MintSid(bytes) == "sess_" + token;
    assert IsToken(token) && Reads(MintSid(bytes), "sess_" + token);
  }

  lemma QuadSafe(a: Byte, b: Byte, c: Byte)
    ensures |Quad(a, b, c)| == 4 && forall i :: 0 <= i < 4 ==> UrlSafe(Quad(a, b, c)[i])
  {
  }

  // ---------------------------------------------------------------- home paths

  /** The segment stands between two neighbouring slashes, or a slash and an end. */
  ghost predicate SegmentAt(s: string, i: nat, segment: string) {
    && i + |segment| <= |s| && s[i..i + |segment|] == segment && '/' !in segment
    && (i == 0 || s[i - 1] == '/') && (i + |segment| == |s| || s[i + |segment|] == '/')
  }

  ghost predicate HasSegment(s: string, segment: string) {
    exists i: nat :: SegmentAt(s, i, segment)
  }

  /** No segment is empty, `.` or `..`. */
  ghost predicate NoDots(s: string) {
    !HasSegment(s, "") && !HasSegment(s, ".") && !HasSegment(s, "..")
  }

  /** `~`, the root, or a path below one of them without empty, `.` or `..` segments. */
  ghost predicate PathForm(path: string) {
    || path == "~" || path == "/"
    || ("~/" <= path && NoDots(path[2..]))
    || ("/" <= path && NoDots(path[1..]))
  }

  /** Splitting at slashes gives exactly the segments. */
  lemma {:induction false} SplitSegments(s: string, segment: string)
    ensures segment in Split(s, '/') <==> HasSegment(s, segment)
    decreases |s|
  {
    if '/' !in s {
      SplitPlain(s);
      OneSegmentOnly(s, segment);
    } else {
      var k := FirstSlash(s);
      var a, b := s[..k], s[k + 1..];
      assert s == a + ['/'] + b;
      SplitConcat(a, b, '/');
      SplitPlain(a);
      SplitSegments(b, segment);
      FirstSegment(a, b, segment);
    }
  }

  lemma {:induction false} FirstSlash(s: string) returns (k: nat)
    requires '/' in s
    ensures k < |s| && s[k] == '/' && '/' !in s[..k]
  {
    if s[0] == '/' {
      k := 0;
    } else {
      var rest := FirstSlash(s[1..]);
      k := rest + 1;
      assert s[..k] == [s[0]] + s[1..][..rest];
    }
  }

  lemma OneSegmentOnly(s: string, segment: string)
    requires '/' !in s
    ensures HasSegment(s, segment) <==> segment == s
  {
    if HasSegment(s, segment) {
      var i: nat :| SegmentAt(s, i, segment);
      assert i == 0 && |segment| == |s|;
    }
    assert SegmentAt(s, 0, s);
  }

  lemma FirstSegment(a: string, b: string, segment: string)
    requires '/' !in a
    ensures HasSegment(a + ['/'] + b, segment) <==> segment == a || HasSegment(b, segment)
  {
    var s := a + ['/'] + b;
    assert s[|a|] == '/' && s[..|a|] == a && s[|a| + 1..] == b;
    assert SegmentAt(s, 0, a);
    if HasSegment(b, segment) {
      var i: nat :| SegmentAt(b, i, segment);
      SegmentLater(a, b, i, segment);
    }
    if HasSegment(s, segment) && segment != a {
      var i: nat :| SegmentAt(s, i, segment);
      SegmentPlaces(a, b, i, segment);
      SegmentLater(a, b, i - |a| - 1, segment);
    }
  }

  /** A segment is the first one, or starts after the first slash. */
  lemma SegmentPlaces(a: string, b: string, i: nat, segment: string)
    requires '/' !in a && SegmentAt(a + ['/'] + b, i, segment) && segment != a
    ensures i > |a|
  {
    var s := a + ['/'] + b;
    assert forall k :: 0 <= k < |a| ==> s[k] == a[k];
    assert s[|a|] == '/';
  }

  lemma SegmentLater(a: string, b: string, i: nat, segment: string)
    ensures SegmentAt(b, i, segment) <==> SegmentAt(a + ['/'] + b, i + |a| + 1, segment)
  {
    var s, n := a + ['/'] + b, |a| + 1;
    assert forall k :: 0 <= k < |b| ==> s[n + k] == b[k];
    assert s[n - 1] == '/';
    if i + |segment| <= |b| {
      assert s[n + i..n + i + |segment|] == b[i..i + |segment|];
    }
  }

  /** The check of the daemon accepts exactly the paths of this form. */
  lemma PathFormIff(path: string)
    ensures IsNormalizedPath(path) <==> PathForm(path)
  {
    if "~/" <= path {
      CleanIff(path[2..]);
      assert path[0] == '~';
    } else if "/" <= path && path != "/" {
      var rest := path[1..];
      CleanIff(rest);
      assert Split(path, '/')[1..] == Split(rest, '/');
      assert rest[|rest| - 1] == path[|path| - 1];
      SplitEnds(rest);
    }
    hide NoDots, Split;
  }

  /** A path below a directory is clean iff it has no empty, `.` or `..` segment. */
  lemma CleanIff(rest: string)
    ensures CleanSegments(Split(rest, '/')) <==> NoDots(rest)
    ensures IsCleanRelative(rest) <==> NoDots(rest)
  {
    SplitSegments(rest, "");
    SplitSegments(rest, ".");
    SplitSegments(rest, "..");
    hide Split, HasSegment;
    if rest == "" {
      EmptyHasEmpty();
    } else {
      SplitEnds(rest);
    }
  }

  lemma EmptyHasEmpty()
    ensures HasSegment("", "")
  {
    assert SegmentAt("", 0, "");
  }

  // ---------------------------------------------------------------- topic names

  /** The UTF-8 bytes of a character, section 3 of RFC 3629. */
  function EncodeChar(c: char): seq<Byte> {
    var n := c as int;
    if n < 0x80 then [n]
    else if n < 0x800 then [0xC0 + n / 0x40, 0x80 + n % 0x40]
    else if n < 0x1_0000 then [0xE0 + n / 0x1000, 0x80 + n / 0x40 % 0x40, 0x80 + n % 0x40]
    else [0xF0 + n / 0x4_0000, 0x80 + n / 0x1000 % 0x40, 0x80 + n / 0x40 % 0x40, 0x80 + n % 0x40]
  }

  function Encode(s: string): seq<Byte> {
    if s == "" then [] else EncodeChar(s[0]) + Encode(s[1..])
  }

  /** The check of a topic name counts the bytes of its UTF-8 encoding. */
  lemma {:induction false} Utf8LengthIsEncoded(s: string)
    ensures Utf8Length(s) == |Encode(s)|
  {
    if s == "" {
    } else {
      Utf8LengthIsEncoded(s[1..]);
    }
  }

  predicate TopicForm(name: string) {
    name != "" && name[0] != '/' && '#' !in name && |Encode(name)| <= 256
  }

  lemma TopicFormIff(name: string)
    ensures IsValidTopicName(name) <==> TopicForm(name)
  {
    Utf8LengthIsEncoded(name);
  }

  /** The character that the first bytes encode, and how many they are. */
  function DecodeChar(bytes: seq<Byte>): (r: (int, nat))
    requires bytes != []
  {
    var b: seq<int> := bytes + [0, 0, 0];
    if b[0] < 0x80 then (b[0], 1)
    else if b[0] < 0xE0 then ((b[0] - 0xC0) * 0x40 + b[1] - 0x80, 2)
    else if b[0] < 0xF0 then ((b[0] - 0xE0) * 0x1000 + (b[1] - 0x80) * 0x40 + b[2] - 0x80, 3)
    else ((b[0] - 0xF0) * 0x4_0000 + (b[1] - 0x80) * 0x1000 + (b[2] - 0x80) * 0x40 + b[3] - 0x80, 4)
  }

  lemma DecodeEncode(c: char, rest: seq<Byte>)
    ensures DecodeChar(EncodeChar(c) + rest) == (c as int, |EncodeChar(c)|)
  {
    var n := c as int;
    assert n / 0x40 / 0x40 == n / 0x1000 && n / 0x1000 / 0x40 == n / 0x4_0000;
  }

  /** The encoding loses nothing: different names have different bytes. */
  lemma {:induction false} EncodeInjective(s: string, t: string)
    requires Encode(s) == Encode(t)
    ensures s == t
  {
    if s != "" && t != "" {
      DecodeEncode(s[0], Encode(s[1..]));
      DecodeEncode(t[0], Encode(t[1..]));
      assert Encode(s[1..]) == Encode(s)[|EncodeChar(s[0])|..];
      assert Encode(t[1..]) == Encode(t)[|EncodeChar(t[0])|..];
      EncodeInjective(s[1..], t[1..]);
      assert s == [s[0]] + s[1..] && t == [t[0]] + t[1..];
    }
  }
}
