/** Path normalization, the address grammar, and identity tokens. */
module Addressing {
  import opened Base

  // ---------------------------------------------------------------- identity tokens

  predicate IsLower(c: char) { 'a' <= c <= 'z' }

  predicate IsDigit(c: char) { '0' <= c <= '9' }

  predicate IsBase64Url(c: char) {
    IsLower(c) || 'A' <= c <= 'Z' || IsDigit(c) || c == '_' || c == '-'
  }

  predicate IsAliasChar(c: char) {
    IsLower(c) || IsDigit(c) || c == '_' || c == '-'
  }

  const SID_PREFIX := "sess_"

  predicate SidShape(s: string) {
    |s| == 21 && SID_PREFIX <= s && forall i :: 5 <= i < |s| ==> IsBase64Url(s[i])
  }

  predicate AliasShape(s: string) {
    1 <= |s| <= 64 && IsLower(s[0]) && forall i :: 1 <= i < |s| ==> IsAliasChar(s[i])
  }

  /** A `$` at the end of a pattern also matches before one trailing newline. */
  function DropNewline(s: string): string {
    if s != "" && s[|s| - 1] == '\n' then s[..|s| - 1] else s
  }

  predicate IsValidSid(s: string) {
    SidShape(DropNewline(s))
  }

  predicate IsValidAlias(s: string) {
    AliasShape(DropNewline(s)) && !(SID_PREFIX <= s)
  }

  predicate IsValidDiscriminator(d: string) {
    IsValidSid(d) || IsValidAlias(d)
  }

  /** No string is both a session id and an alias, so the slot after `#` is unambiguous. */
  lemma SidAliasDisjoint(s: string)
    ensures !(IsValidSid(s) && IsValidAlias(s))
  {
    if IsValidSid(s) {
      assert SID_PREFIX <= DropNewline(s) <= s;
    }
  }

  // ---------------------------------------------------------------- topic names

  const TOPIC_MAX_BYTES := 256

  function Utf8Bytes(c: char): nat {
    var n := c as int;
    if n < 0x80 then 1 else if n < 0x800 then 2 else if n < 0x1_0000 then 3 else 4
  }

  function Utf8Length(s: string): nat {
    if s == "" then 0 else Utf8Bytes(s[0]) + Utf8Length(s[1..])
  }

  predicate IsValidTopicName(name: string) {
    name != "" && name[0] != '/' && '#' !in name && Utf8Length(name) <= TOPIC_MAX_BYTES
  }

  // ---------------------------------------------------------------- normalized paths

  function Split(s: string, sep: char): (parts: seq<string>)
    ensures |parts| >= 1
  {
    if s == "" then [""]
    else
      var rest := Split(s[1..], sep);
      if s[0] == sep then [""] + rest else [[s[0]] + rest[0]] + rest[1..]
  }

  predicate CleanSegments(parts: seq<string>) {
    forall p :: p in parts ==> p != "" && p != "." && p != ".."
  }

  predicate IsCleanRelative(rest: string) {
    && rest != "" && rest[0] != '/' && rest[|rest| - 1] != '/'
    && CleanSegments(Split(rest, '/'))
  }

  predicate IsCleanAbsolute(path: string)
    requires path != ""
  {
    path == "/" || (path[|path| - 1] != '/' && CleanSegments(Split(path, '/')[1..]))
  }

  predicate IsNormalizedPath(path: string) {
    if path == "" then false
    else if path == "~" then true
    else if "~/" <= path then IsCleanRelative(path[2..])
    else path[0] == '/' && IsCleanAbsolute(path)
  }

  /** What `realpath` returns: an absolute path without empty, `.` or `..` segments. */
  predicate IsRealPath(path: string) {
    path != "" && path[0] == '/' && IsCleanAbsolute(path)
  }

  function StripSlashes(s: string): string {
    if s != "" && s[|s| - 1] == '/' then StripSlashes(s[..|s| - 1]) else s
  }

  /** The canonical form of a resolved path, given the resolved home directory of the user. */
  function NormalizePath(resolved: string, userHome: string): string {
    var path := if resolved != "/" && resolved != "" && resolved[|resolved| - 1] == '/'
                then StripSlashes(resolved) else resolved;
    if path == userHome then "~"
    else if userHome + "/" <= path then "~/" + path[|userHome| + 1..]
    else path
  }

  /** Tilde expansion; a user home that is the root adds no second slash. */
  function Expand(path: string, userHome: string): string {
    if path == "~" then userHome
    else if "~/" <= path then (if userHome == "/" then "" else userHome) + "/" + path[2..]
    else path
  }

  lemma {:induction false} SplitConcat(a: string, b: string, sep: char)
    ensures Split(a + [sep] + b, sep) == Split(a, sep) + Split(b, sep)
  {
    var s := a + [sep] + b;
    if a == "" {
      assert s[1..] == b;
    } else {
      assert s[0] == a[0];
      assert s[1..] == a[1..] + [sep] + b;
      SplitConcat(a[1..], b, sep);
      HeadOfConcat(Split(a[1..], sep), Split(b, sep), [s[0]]);
    }
  }

  lemma HeadOfConcat(l: seq<string>, r: seq<string>, c: string)
    requires l != []
    ensures [""] + (l + r) == [""] + l + r
    ensures [c + (l + r)[0]] + (l + r)[1..] == [c + l[0]] + l[1..] + r
  {
    assert (l + r)[1..] == l[1..] + r;
  }

  /** A slash at either end shows up as an empty first or last segment. */
  lemma {:induction false} SplitEnds(s: string)
    requires s != ""
    ensures s[0] == '/' ==> Split(s, '/')[0] == ""
    ensures s[|s| - 1] == '/' ==> Split(s, '/')[|Split(s, '/')| - 1] == ""
  {
    if |s| == 1 {
    } else {
      var rest := Split(s[1..], '/');
      SplitEnds(s[1..]);
      assert s[1..][|s| - 2] == s[|s| - 1];
      if s[|s| - 1] == '/' {
        SplitCountsSlashes(s[1..], |s| - 2);
        assert |rest| >= 2 && rest[|rest| - 1] == "";
        assert Split(s, '/')[1..] == if s[0] == '/' then rest else rest[1..];
      }
    }
  }

  lemma {:induction false} SplitCountsSlashes(s: string, i: nat)
    requires i < |s| && s[i] == '/'
    ensures |Split(s, '/')| >= 2
  {
    if i == 0 {
    } else {
      SplitCountsSlashes(s[1..], i - 1);
    }
  }

  /** Below a directory other than the root, "clean" is a matter of the part after the prefix. */
  lemma CleanBelow(dir: string, rest: string)
    requires IsRealPath(dir) && dir != "/"
    ensures IsCleanRelative(rest) <==> IsRealPath(dir + "/" + rest)
  {
    var path := dir + "/" + rest;
    SplitConcat(dir, rest, '/');
    var d, r := Split(dir, '/'), Split(rest, '/');
    assert Split(path, '/')[1..] == d[1..] + r;
    if IsCleanRelative(rest) {
      assert path[|path| - 1] == rest[|rest| - 1];
    }
    if IsRealPath(path) {
      assert forall p :: p in r ==> p in d[1..] + r;
      if rest != "" {
        SplitEnds(rest);
        assert r[0] in r && r[|r| - 1] in r;
      }
    }
  }

  /** A resolved path never starts with two slashes. */
  lemma NoDoubleSlash(path: string)
    requires IsRealPath(path)
    ensures |path| > 1 ==> path[1] != '/'
  {
    if |path| > 1 {
      var rest := Split(path[1..], '/');
      assert Split(path, '/')[1..] == rest;
      assert rest[0] in rest;
      SplitEnds(path[1..]);
    }
  }

  /** Trailing slashes make no difference to the canonical form. */
  lemma {:induction false} TrailingSlashes(resolved: string, userHome: string, slashes: string)
    requires IsRealPath(resolved) && resolved != "/" && forall i :: 0 <= i < |slashes| ==> slashes[i] == '/'
    ensures NormalizePath(resolved + slashes, userHome) == NormalizePath(resolved, userHome)
  {
    StripsAll(resolved, slashes);
    assert resolved + [] == resolved;
    hide IsCleanAbsolute;
    assert |slashes| > 0 ==> (resolved + slashes)[|resolved + slashes| - 1] == '/';
  }

  lemma {:induction false} StripsAll(path: string, slashes: string)
    requires path == "" || path[|path| - 1] != '/'
    requires forall i :: 0 <= i < |slashes| ==> slashes[i] == '/'
    ensures StripSlashes(path + slashes) == path
  {
    if slashes == "" {
      assert path + slashes == path;
    } else {
      var s := path + slashes;
      assert s[..|s| - 1] == path + slashes[..|slashes| - 1];
      assert s[|s| - 1] == '/';
      StripsAll(path, slashes[..|slashes| - 1]);
    }
  }

  /** Normalizing a resolved path yields a string that the daemon accepts as normalized, and
      tilde expansion gives the path back: the canonical form loses nothing. */
  lemma NormalizeRoundTrip(resolved: string, userHome: string)
    requires IsRealPath(resolved) && IsRealPath(userHome)
    ensures IsNormalizedPath(NormalizePath(resolved, userHome))
    ensures Expand(NormalizePath(resolved, userHome), userHome) == resolved
  {
    if resolved != userHome && userHome != "/" && userHome + "/" <= resolved {
      NormalizeBelowHome(resolved, userHome);
    } else {
      NoDoubleSlash(resolved);
      assert resolved != "/" ==> resolved[|resolved| - 1] != '/';
      assert userHome == "/" ==> !(userHome + "/" <= resolved);
      hide Split, CleanSegments, StripSlashes;
    }
  }

  lemma NormalizeBelowHome(resolved: string, userHome: string)
    requires IsRealPath(resolved) && IsRealPath(userHome)
    requires resolved != userHome && userHome != "/" && userHome + "/" <= resolved
    ensures IsNormalizedPath(NormalizePath(resolved, userHome))
    ensures Expand(NormalizePath(resolved, userHome), userHome) == resolved
  {
    var rest := resolved[|userHome| + 1..];
    assert resolved == userHome + "/" + rest;
    CleanBelow(userHome, rest);
    assert NormalizePath(resolved, userHome) == "~/" + rest;
    assert ("~/" + rest)[2..] == rest;
    hide Split, CleanSegments, StripSlashes, NormalizePath;
  }

  /** Two resolved paths with the same canonical form are the same path. */
  lemma NormalizeInjective(p: string, q: string, userHome: string)
    requires IsRealPath(p) && IsRealPath(q) && IsRealPath(userHome)
    requires NormalizePath(p, userHome) == NormalizePath(q, userHome)
    ensures p == q
  {
    NormalizeRoundTrip(p, userHome);
    NormalizeRoundTrip(q, userHome);
  }

  /** An accepted path is spelled in the way that normalization spells it: not absolutely at or below
      the user's home, and not below `~` when that is the root. */
  predicate IsCanonicalSpelling(path: string, userHome: string) {
    && path != userHome
    && (if userHome == "/" then !("~/" <= path) else !(userHome + "/" <= path))
  }

  /** The form check alone does not force the canonical spelling: an accepted path expands to a
      resolved one, and is what normalization produces for it iff it is spelled canonically. */
  lemma AcceptedIsCanonicalIff(path: string, userHome: string)
    requires IsNormalizedPath(path) && IsRealPath(userHome)
    ensures IsRealPath(Expand(path, userHome))
    ensures NormalizePath(Expand(path, userHome), userHome) == path <==> IsCanonicalSpelling(path, userHome)
  {
    if userHome == "/" {
      CanonicalUnderRoot(path);
    } else if "~/" <= path {
      TildePathIsCanonical(path, userHome);
    }
  }

  lemma CanonicalUnderRoot(path: string)
    requires IsNormalizedPath(path)
    ensures IsRealPath(Expand(path, "/"))
    ensures NormalizePath(Expand(path, "/"), "/") == path <==> IsCanonicalSpelling(path, "/")
  {
    if "~/" <= path {
      var rest := path[2..];
      var full := "" + "/" + rest;
      assert full[1..] == rest && full[|full| - 1] == rest[|rest| - 1];
      assert IsRealPath(full);
      NoDoubleSlash(full);
      assert NormalizePath(full, "/") == full && full[0] == '/' && path[0] == '~';
    } else if path != "~" {
      NoDoubleSlash(path);
    }
  }

  lemma TildePathIsCanonical(path: string, userHome: string)
    requires IsNormalizedPath(path) && IsRealPath(userHome) && userHome != "/" && "~/" <= path
    ensures IsRealPath(Expand(path, userHome)) && NormalizePath(Expand(path, userHome), userHome) == path
    ensures IsCanonicalSpelling(path, userHome)
  {
    var rest := path[2..];
    CleanBelow(userHome, rest);
    assert path == "~/" + rest;
    assert (userHome + "/" + rest)[|userHome| + 1..] == rest;
    assert (userHome + "/")[0] == '/' && path[0] == '~';
    hide Split, CleanSegments, StripSlashes;
  }

  // ---------------------------------------------------------------- addresses

  datatype Address =
    | Home(home: string, disc: Option<string>)
    | Topic(name: string)
  {
    function Render(): string {
      match this
      case Home(h, None) => "home:" + h
      case Home(h, Some(d)) => "home:" + h + "#" + d
      case Topic(n) => "topic:" + n
    }

    predicate Valid() {
      match this
      case Home(h, d) => IsNormalizedPath(h) && (d.Some? ==> IsValidDiscriminator(d.value))
      case Topic(n) => IsValidTopicName(n)
    }
  }

  datatype AddressError =
    | EmptyAddress | InvalidTopic | UnnormalizedHome | InvalidDiscriminator | UnknownScheme

  /** The position of the first `#`, or the length when there is none. */
  function FirstHash(s: string): (i: nat)
    ensures i <= |s|
    ensures forall j :: 0 <= j < i ==> s[j] != '#'
    ensures i < |s| ==> s[i] == '#'
  {
    if s == "" || s[0] == '#' then 0 else 1 + FirstHash(s[1..])
  }

  function ParseHome(rest: string): Result<Address, AddressError> {
    var i := FirstHash(rest);
    var home := rest[..i];
    var disc := if i < |rest| then Some(rest[i + 1..]) else None;
    if !IsNormalizedPath(home) then Err(UnnormalizedHome)
    else if disc.Some? && !IsValidDiscriminator(disc.value) then Err(InvalidDiscriminator)
    else Ok(Home(home, disc))
  }

  function ParseAddress(addr: string): Result<Address, AddressError> {
    if addr == "" then Err(EmptyAddress)
    else if "topic:" <= addr then
      var name := addr[6..];
      if IsValidTopicName(name) then Ok(Topic(name)) else Err(InvalidTopic)
    else if "home:" <= addr then ParseHome(addr[5..])
    else Err(UnknownScheme)
  }

  /** A home without `#`, the separator that the parser looks for first. */
  predicate Hashless(x: Address) {
    x.Home? ==> '#' !in x.home
  }

  /** Parser and printer are inverse, exactly on the valid addresses whose home has no `#`. */
  lemma ParseRender(a: string, x: Address)
    ensures ParseAddress(a) == Ok(x) <==> x.Valid() && Hashless(x) && a == x.Render()
  {
    if ParseAddress(a) == Ok(x) {
      PrintAfterParse(a, x);
    }
    if x.Valid() && Hashless(x) && a == x.Render() {
      ParseAfterPrint(x);
    }
  }

  lemma PrintAfterParse(a: string, x: Address)
    requires ParseAddress(a) == Ok(x)
    ensures x.Valid() && Hashless(x) && a == x.Render()
  {
    if "topic:" <= a {
      assert a == "topic:" + a[6..];
    } else {
      var rest := a[5..];
      assert a == "home:" + rest;
      PrintAfterParseHome(rest, x);
    }
  }

  lemma PrintAfterParseHome(rest: string, x: Address)
    requires ParseHome(rest) == Ok(x)
    ensures x.Home? && x.Valid() && Hashless(x) && "home:" + rest == x.Render()
  {
    hide IsNormalizedPath, IsValidSid, IsValidAlias;
    var i := FirstHash(rest);
    assert x.home == rest[..i];
    if i < |rest| {
      assert rest == rest[..i] + "#" + rest[i + 1..];
      assert "home:" + (rest[..i] + "#" + rest[i + 1..]) == "home:" + rest[..i] + "#" + rest[i + 1..];
    } else {
      assert rest == rest[..i];
    }
  }

  lemma ParseAfterPrint(x: Address)
    requires x.Valid() && Hashless(x)
    ensures ParseAddress(x.Render()) == Ok(x)
  {
    match x {
      case Topic(n) =>
        assert ("topic:" + n)[6..] == n;
      case Home(h, None) =>
        ParseHomeAfterPrint(h, None, h);
        DropScheme(h);
      case Home(h, Some(d)) =>
        ParseHomeAfterPrint(h, Some(d), h + "#" + d);
        DropScheme(h + "#" + d);
        assert "home:" + h + "#" + d == "home:" + (h + "#" + d);
    }
  }

  lemma DropScheme(rest: string)
    ensures ParseAddress("home:" + rest) == ParseHome(rest)
  {
    var a := "home:" + rest;
    assert a[5..] == rest;
    assert a[0] == 'h' && "topic:"[0] == 't';
  }

  lemma ParseHomeAfterPrint(home: string, disc: Option<string>, rest: string)
    requires Home(home, disc).Valid() && '#' !in home
    requires rest == match disc case None => home case Some(d) => home + "#" + d
    ensures ParseHome(rest) == Ok(Home(home, disc))
  {
    var i := FirstHash(rest);
    assert forall j :: 0 <= j < |home| ==> rest[j] == home[j];
    assert |home| < |rest| ==> rest[|home|] == '#';
    assert i == |home|;
    assert rest[..i] == home;
    assert disc.Some? ==> rest[i + 1..] == disc.value;
  }

  /** For a valid address, printing and parsing back fails iff its home contains a `#`. */
  lemma RoundTripIffHashless(x: Address)
    requires x.Valid()
    ensures ParseAddress(x.Render()) == Ok(x) <==> Hashless(x)
  {
    ParseRender(x.Render(), x);
  }

  /** A home such as `/a#b` is accepted as normalized, yet its broadcast address reads back as
      the address of alias `b` in `/a`. */
  lemma HashInHomeMisparses()
    ensures IsNormalizedPath("/a#b")
    ensures ParseAddress("home:/a#b") == Ok(Home("/a", Some("b")))
  {
    OneSegment("a#b");
    OneSegment("a");
    assert "/" + "a#b" == "/a#b" && "/" + "a" == "/a";
    hide IsNormalizedPath;
    assert IsValidAlias("b");
    assert Home("/a", Some("b")).Render() == "home:/a#b";
    hide IsValidAlias, IsValidSid, ParseAddress, Address.Render;
    ParseRender("home:/a#b", Home("/a", Some("b")));
  }

  lemma OneSegment(name: string)
    requires '/' !in name && name != "" && name != "." && name != ".."
    ensures IsNormalizedPath("/" + name)
  {
    SplitPlain(name);
    assert ("/" + name)[1..] == name;
  }

  lemma {:induction false} SplitPlain(s: string)
    requires '/' !in s
    ensures Split(s, '/') == [s]
  {
    if s == "" {
    } else {
      SplitPlain(s[1..]);
      assert [s[0]] + s[1..] == s;
    }
  }
}
