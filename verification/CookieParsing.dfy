/** Cookies as values: domain and path matching, Max-Age, the attributes of a Set-Cookie value
    and what is stored of it (src/core/policy/cookies.rs; sections 5.1 and 5.2 of RFC 6265).

    Time is a number of seconds. Canonical domains, IP addresses, cookie dates and name
    prefixes are what a library says they are: functions of an arbitrary `Library`. */
module CookieParsing {
  import opened Basics

  const MAX_COOKIE_PAIR_OCTETS: nat := 4096
  const MAX_COOKIE_ATTRIBUTE_VALUE_OCTETS: nat := 1024
  const MAX_COOKIE_AGE_SECONDS: nat := 34_560_000
  const I64_MAX: nat := 0x7fff_ffff_ffff_ffff
  const MAX_TIME: int := 253_402_300_799

  type Time = int

  datatype Library = Library(
    isIp: string -> bool,
    canonical: string -> Option<string>,
    parseDate: string -> Option<Time>,
    hasSecurePrefix: string -> bool,
    hasHostPrefix: string -> bool)

  datatype StoredCookie = StoredCookie(
    name: string,
    wirePair: string,
    domain: string,
    path: string,
    hostOnly: bool,
    secure: bool,
    expiresAt: Option<Time>,
    creation: nat,
    lastAccess: nat)

  // ----- Matching (sections 5.1.3 and 5.1.4 of RFC 6265) -----

  predicate DomainMatches(lib: Library, host: string, domain: string) {
    || host == domain
    || (&& |host| > |domain|
        && host[|host| - |domain|..] == domain
        && host[|host| - |domain| - 1] == '.'
        && !lib.isIp(host))
  }

  predicate PathMatches(requestPath: string, cookiePath: string) {
    || requestPath == cookiePath
    || (&& cookiePath < requestPath
        && ((cookiePath != "" && cookiePath[|cookiePath| - 1] == '/') || requestPath[|cookiePath|] == '/'))
  }

  predicate SameIdentity(a: StoredCookie, b: StoredCookie) {
    a.name == b.name && a.domain == b.domain && a.hostOnly == b.hostOnly && a.path == b.path
  }

  predicate IsExpired(c: StoredCookie, now: Time) { c.expiresAt.Some? && c.expiresAt.value <= now }

  predicate Matches(lib: Library, c: StoredCookie, host: string, path: string, secure: bool) {
    && (if c.hostOnly then c.domain == host else DomainMatches(lib, host, c.domain))
    && PathMatches(path, c.path)
    && (!c.secure || secure)
  }

  // ----- Max-Age -----

  function SatAdd(a: nat, b: nat): nat { if a + b > I64_MAX then I64_MAX else a + b }

  function SatMul(a: nat, b: nat): nat { if a * b > I64_MAX then I64_MAX else a * b }

  predicate IsDigits(s: string) { s != "" && forall i :: 0 <= i < |s| ==> '0' <= s[i] <= '9' }

  function Digit(c: char): nat
    requires '0' <= c <= '9'
  {
    c as int - '0' as int
  }

  /** The number a digit string denotes, without any bound. */
  function Decimal(s: string): nat
    requires forall i :: 0 <= i < |s| ==> '0' <= s[i] <= '9'
  {
    if s == "" then 0 else 10 * Decimal(s[..|s| - 1]) + Digit(s[|s| - 1])
  }

  /** The saturating, clamping fold over 64-bit integers. */
  function FoldSeconds(s: string): nat
    requires forall i :: 0 <= i < |s| ==> '0' <= s[i] <= '9'
  {
    if s == "" then 0
    else
      var seconds := SatAdd(SatMul(FoldSeconds(s[..|s| - 1]), 10), Digit(s[|s| - 1]));
      if seconds < MAX_COOKIE_AGE_SECONDS then seconds else MAX_COOKIE_AGE_SECONDS
  }

  /** Neither the saturation nor the early clamping shows: the fold is the decimal value,
      capped at 400 days, for every digit string. */
  lemma {:induction false} FoldIsCappedDecimal(s: string)
    requires forall i :: 0 <= i < |s| ==> '0' <= s[i] <= '9'
    ensures FoldSeconds(s) == Min(Decimal(s), MAX_COOKIE_AGE_SECONDS)
  {
    if s == "" {
    } else {
      FoldIsCappedDecimal(s[..|s| - 1]);
    }
  }

  function Later(now: Time, seconds: nat): Time { Min(now + seconds, MAX_TIME) }

  predicate AllZeros(s: string) { forall i :: 0 <= i < |s| ==> s[i] == '0' }

  function ParseMaxAge(value: string, now: Time): Option<Time> {
    var negative := value != "" && value[0] == '-';
    var digits := if negative then value[1..] else value;
    if !IsDigits(digits) then None
    else if negative || AllZeros(digits) then Some(now)
    else Some(Later(now, FoldSeconds(digits)))
  }

  lemma {:induction false} ZerosAreZero(s: string)
    requires AllZeros(s)
    ensures Decimal(s) == 0
  {
    if s == "" {
    } else {
      ZerosAreZero(s[..|s| - 1]);
    }
  }

  /** The expiry is `now` for a negative age, and otherwise `now` plus the decimal age capped
      at 400 days; anything else is not an age. */
  lemma MaxAgeMeaning(value: string, now: Time)
    requires now <= MAX_TIME
    ensures IsDigits(value) ==>
              ParseMaxAge(value, now) == Some(Later(now, Min(Decimal(value), MAX_COOKIE_AGE_SECONDS)))
    ensures value != "" && value[0] == '-' && IsDigits(value[1..]) ==> ParseMaxAge(value, now) == Some(now)
    ensures !IsDigits(value) && !(value != "" && value[0] == '-' && IsDigits(value[1..])) ==>
              ParseMaxAge(value, now) == None
  {
    if IsDigits(value) {
      assert value[0] != '-';
      FoldIsCappedDecimal(value);
      if AllZeros(value) {
        ZerosAreZero(value);
      }
    }
  }

  // ----- Parsing a Set-Cookie value -----

  predicate IsAscii(s: string) { forall i :: 0 <= i < |s| ==> s[i] as int < 0x80 }

  predicate HasDisallowedControl(s: string) {
    exists i :: 0 <= i < |s| && (s[i] as int <= 0x08 || 0x0a <= s[i] as int <= 0x1f || s[i] as int == 0x7f)
  }

  /** Octets on the wire; None for a character that is not one octet. */
  function OctetLength(s: string): Option<nat> {
    if exists i :: 0 <= i < |s| && s[i] as int > 0xff then None else Some(|s|)
  }

  datatype Attributes = Attributes(
    domain: Option<string>,
    path: Option<string>,
    secure: bool,
    expires: Option<Time>,
    maxAge: Option<Time>)

  function ClampExpiry(expires: Time, now: Time): Time { Min(expires, Later(now, MAX_COOKIE_AGE_SECONDS)) }

  function AttributeName(raw: string): string { Lower(Trim(raw[..IndexOf(raw, '=')])) }

  function AttributeText(raw: string): string {
    var i := IndexOf(raw, '=');
    Trim(if i == |raw| then "" else raw[i + 1..])
  }

  /** Neither unreadable nor oversized. */
  predicate Fits(raw: string) {
    var octets := OctetLength(AttributeText(raw));
    octets.Some? && octets.value <= MAX_COOKIE_ATTRIBUTE_VALUE_OCTETS
  }

  function ParseExpires(lib: Library, text: string, now: Time): Option<Time> {
    match lib.parseDate(text)
    case Some(t) => Some(ClampExpiry(t, now))
    case None => None
  }

  function Or<T>(a: Option<T>, b: Option<T>): Option<T> { if a.Some? then a else b }

  function WithAttribute(lib: Library, a: Attributes, raw: string, now: Time): Attributes {
    var name, value := AttributeName(raw), AttributeText(raw);
    if !Fits(raw) then a
    else if name == "domain" then a.(domain := Some(value))
    else if name == "path" then a.(path := Some(value))
    else if name == "secure" then a.(secure := true)
    else if name == "expires" then a.(expires := Or(ParseExpires(lib, value, now), a.expires))
    else if name == "max-age" then a.(maxAge := Or(ParseMaxAge(value, now), a.maxAge))
    else a
  }

  const NO_ATTRIBUTES: Attributes := Attributes(None, None, false, None, None)

  function AttributesOf(lib: Library, raws: seq<string>, now: Time): Attributes {
    if raws == [] then NO_ATTRIBUTES
    else WithAttribute(lib, AttributesOf(lib, raws[..|raws| - 1], now), raws[|raws| - 1], now)
  }

  /** A fitting attribute with this name. */
  predicate IsAttribute(raw: string, name: string) { Fits(raw) && AttributeName(raw) == name }

  function TextOf(name: string): string -> Option<string> {
    (raw: string) => if IsAttribute(raw, name) then Some(AttributeText(raw)) else None
  }

  /** The clamped expiry of a fitting `expires` attribute whose date parses. */
  function ExpiresOf(lib: Library, now: Time): string -> Option<Time> {
    (raw: string) => if IsAttribute(raw, "expires") then ParseExpires(lib, AttributeText(raw), now) else None
  }

  /** The expiry of a fitting `max-age` attribute that is an age. */
  function MaxAgeOf(now: Time): string -> Option<Time> {
    (raw: string) => if IsAttribute(raw, "max-age") then ParseMaxAge(AttributeText(raw), now) else None
  }

  /** `r` is what the last raw attribute readable by `read` says, and None iff there is none. */
  predicate IsLatest<T(==)>(raws: seq<string>, read: string -> Option<T>, r: Option<T>) {
    match r
    case None => forall i :: 0 <= i < |raws| ==> read(raws[i]).None?
    case Some(_) =>
      exists i :: 0 <= i < |raws| && read(raws[i]) == r && forall j :: i < j < |raws| ==> read(raws[j]).None?
  }

  lemma LatestSnoc<T>(raws: seq<string>, read: string -> Option<T>, r: Option<T>, raw: string)
    requires IsLatest(raws, read, r)
    ensures IsLatest(raws + [raw], read, Or(read(raw), r))
  {
    var all := raws + [raw];
    if read(raw).Some? {
      assert read(all[|raws|]) == read(raw);
    } else if r.Some? {
      var i :| 0 <= i < |raws| && read(raws[i]) == r && forall j :: i < j < |raws| ==> read(raws[j]).None?;
      assert all[i] == raws[i];
      forall j | i < j < |all| ensures read(all[j]).None? {
        assert j < |raws| ==> all[j] == raws[j];
      }
    }
  }

  /** What the attributes of a Set-Cookie value mean, attribute by attribute. */
  ghost predicate AttributesMean(lib: Library, raws: seq<string>, now: Time, a: Attributes) {
    && IsLatest(raws, TextOf("domain"), a.domain)
    && IsLatest(raws, TextOf("path"), a.path)
    && (a.secure <==> exists i :: 0 <= i < |raws| && IsAttribute(raws[i], "secure"))
    && IsLatest(raws, ExpiresOf(lib, now), a.expires)
    && IsLatest(raws, MaxAgeOf(now), a.maxAge)
  }

  lemma AttributeAdds(lib: Library, a: Attributes, raw: string, now: Time)
    ensures var b := WithAttribute(lib, a, raw, now);
            && b.domain == Or(TextOf("domain")(raw), a.domain)
            && b.path == Or(TextOf("path")(raw), a.path)
            && b.secure == (a.secure || IsAttribute(raw, "secure"))
            && b.expires == Or(ExpiresOf(lib, now)(raw), a.expires)
            && b.maxAge == Or(MaxAgeOf(now)(raw), a.maxAge)
  {
    assert "domain"[0] == 'd' && "path"[0] == 'p' && "secure"[0] == 's' && "expires"[0] == 'e' && "max-age"[0] == 'm';
  }

  lemma SecureSnoc(raws: seq<string>, raw: string)
    ensures (exists i :: 0 <= i < |raws + [raw]| && IsAttribute((raws + [raw])[i], "secure"))
            <==> ((exists i :: 0 <= i < |raws| && IsAttribute(raws[i], "secure")) || IsAttribute(raw, "secure"))
  {
    var all := raws + [raw];
    assert all[|raws|] == raw;
    assert forall i :: 0 <= i < |raws| ==> all[i] == raws[i];
  }

  /** A later attribute overrides an earlier one of its name; one that is oversized, unreadable
      or does not parse is as if it were not there. */
  lemma {:induction false} AttributesMeaning(lib: Library, raws: seq<string>, now: Time)
    ensures AttributesMean(lib, raws, now, AttributesOf(lib, raws, now))
  {
    if raws == [] {
    } else {
      var rest, raw := raws[..|raws| - 1], raws[|raws| - 1];
      var a := AttributesOf(lib, rest, now);
      assert raws == rest + [raw];
      AttributesMeaning(lib, rest, now);
      AttributeAdds(lib, a, raw, now);
      LatestSnoc(rest, TextOf("domain"), a.domain, raw);
      LatestSnoc(rest, TextOf("path"), a.path, raw);
      SecureSnoc(rest, raw);
      LatestSnoc(rest, ExpiresOf(lib, now), a.expires, raw);
      LatestSnoc(rest, MaxAgeOf(now), a.maxAge, raw);
    }
  }

  method ParseAttributes(lib: Library, value: string, now: Time) returns (a: Attributes)
    ensures a == AttributesOf(lib, SplitAll(value, ';')[1..], now)
    ensures AttributesMean(lib, SplitAll(value, ';')[1..], now, a)
  {
    var raws := SplitAll(value, ';')[1..];
    a := NO_ATTRIBUTES;
    for i := 0 to |raws|
      invariant a == AttributesOf(lib, raws[..i], now)
    {
      assert raws[..i + 1][..i] == raws[..i];
      a := WithAttribute(lib, a, raws[i], now);
    }
    assert raws[..|raws|] == raws;
    AttributesMeaning(lib, raws, now);
  }

  function RightmostSlash(s: string): (i: int)
    ensures -1 <= i < |s|
    ensures i >= 0 ==> s[i] == '/'
    ensures forall k :: i < k < |s| ==> s[k] != '/'
  {
    if s == "" then -1 else if s[|s| - 1] == '/' then |s| - 1 else RightmostSlash(s[..|s| - 1])
  }

  /** The path up to, and without, its last slash; it matches the path it is the default of
      (section 5.1.4 of RFC 6265). */
  function DefaultPath(requestPath: string): (p: string)
    ensures p != "" && p[0] == '/'
    ensures requestPath != "" && requestPath[0] == '/' ==> PathMatches(requestPath, p)
    ensures forall k :: |p| < k < |requestPath| && requestPath[0] == '/' ==> requestPath[k] != '/'
  {
    assert requestPath != "" && requestPath[0] == '/' ==> requestPath == "/" || "/" < requestPath;
    if requestPath == "" || requestPath[0] != '/' || RightmostSlash(requestPath) <= 0 then "/"
    else requestPath[..RightmostSlash(requestPath)]
  }

  /** The pair before the first semicolon, as name and value; None when both are empty. */
  function CookiePair(value: string): (r: Option<(string, string)>)
    ensures r.Some? ==> ';' !in r.value.0 && ';' !in r.value.1
  {
    var pair := value[..IndexOf(value, ';')];
    var i := IndexOf(pair, '=');
    var name := if i == |pair| then "" else Trim(pair[..i]);
    var cookieValue := Trim(if i == |pair| then pair else pair[i + 1..]);
    if name == "" && cookieValue == "" then None else Some((name, cookieValue))
  }

  function WirePair(name: string, value: string): string {
    if name == "" then value else name + "=" + value
  }

  function Scope(lib: Library, domain: Option<string>, originHost: string): Option<(string, bool)> {
    if domain.None? then Some((originHost, true))
    else
      var d := if domain.value != "" && domain.value[0] == '.' then domain.value[1..] else domain.value;
      if d == "" then Some((originHost, true))
      else if !IsAscii(d) then None
      else match lib.canonical(d)
        case None => None
        case Some(c) => if DomainMatches(lib, originHost, c) then Some((c, false)) else None
  }

  /** Blank neither at the start nor at the end. */
  predicate Tight(s: string) { s == "" || (!IsBlank(s[0]) && !IsBlank(s[|s| - 1])) }

  lemma TightTrim(s: string)
    requires Tight(s)
    ensures Trim(s) == s
  {
  }

  /** A pair written as name, equals sign and value, before any attributes, reads back. */
  lemma PairReadsBack(name: string, value: string, rest: string)
    requires Tight(name) && Tight(value) && (name != "" || value != "")
    requires '=' !in name && ';' !in name && ';' !in value && (rest == "" || rest[0] == ';')
    ensures CookiePair(name + "=" + value + rest) == Some((name, value))
  {
    var pair := name + "=" + value;
    CutAt(pair, rest, ';');
    CutAt(name, "=" + value, '=');
    assert name + ("=" + value) == pair;
    assert pair[|name| + 1..] == value;
    TightTrim(name);
    TightTrim(value);
  }

  /** A value without an equals sign has the empty name. */
  lemma ValueReadsBack(value: string, rest: string)
    requires Tight(value) && value != "" && '=' !in value && ';' !in value && (rest == "" || rest[0] == ';')
    ensures CookiePair(value + rest) == Some(("", value))
  {
    CutAt(value, rest, ';');
    assert IndexOf(value, '=') == |value|;
    TightTrim(value);
  }

  lemma CutAt(head: string, tail: string, c: char)
    requires c !in head && (tail == "" || tail[0] == c)
    ensures IndexOf(head + tail, c) == |head| && (head + tail)[..|head|] == head
  {
    if tail == "" {
      assert head + tail == head;
    } else {
      FirstIndex(head + tail, c, |head|);
    }
  }

  /** The Path attribute if it is absolute, otherwise the default path. */
  function CookiePath(attribute: Option<string>, requestPath: string): (p: string)
    ensures p != "" && p[0] == '/'
  {
    if attribute.Some? && attribute.value != "" && attribute.value[0] == '/' then attribute.value
    else DefaultPath(requestPath)
  }

  /** What the attributes make of a name and a value. */
  function Admit(lib: Library, name: string, cookieValue: string, a: Attributes, originHost: string,
                 requestPath: string, originSecure: bool): (r: Option<StoredCookie>)
    ensures r.Some? ==> r.value.secure == a.secure && (a.secure ==> originSecure)
    ensures r.Some? ==> r.value.expiresAt == Or(a.maxAge, a.expires)
    ensures r.Some? ==> r.value.path == CookiePath(a.path, requestPath)
    ensures r.Some? ==> if r.value.hostOnly then r.value.domain == originHost
                        else DomainMatches(lib, originHost, r.value.domain)
    ensures r.Some? && lib.hasHostPrefix(name) ==> a.secure && r.value.hostOnly && r.value.path == "/"
    ensures r.Some? && lib.hasSecurePrefix(name) ==> a.secure
    ensures r.Some? ==> r.value.name == name && r.value.wirePair == WirePair(name, cookieValue)
  {
    var scope := Scope(lib, a.domain, originHost);
    var path := CookiePath(a.path, requestPath);
    if scope.None? then None
    else if a.secure && !originSecure then None
    else if lib.hasSecurePrefix(name) && !a.secure then None
    else if lib.hasHostPrefix(name) && (!a.secure || !scope.value.1 || a.path.None? || path != "/") then None
    else if name == "" && (lib.hasSecurePrefix(cookieValue) || lib.hasHostPrefix(cookieValue)) then None
    else Some(StoredCookie(name, WirePair(name, cookieValue), scope.value.0, path, scope.value.1, a.secure,
                           Or(a.maxAge, a.expires), 0, 0))
  }

  /** `StoredCookie::parse`. What is stored is a nonempty bounded ASCII pair, is scoped to the
      origin and to an absolute path, and is Secure only from a secure origin. */
  function Parse(lib: Library, value: string, originHost: string, requestPath: string,
                 originSecure: bool, now: Time): (r: Option<StoredCookie>)
    ensures HasDisallowedControl(value) ==> r.None?
    ensures r.Some? ==> r.value.wirePair != "" && (r.value.secure ==> originSecure)
    ensures r.Some? ==> IsAscii(r.value.wirePair) && r.value.name <= r.value.wirePair && ';' !in r.value.wirePair
    ensures r.Some? ==> |r.value.wirePair| <= MAX_COOKIE_PAIR_OCTETS + if r.value.name == "" then 0 else 1
    ensures r.Some? ==> CookiePair(value).Some? && r.value.name == CookiePair(value).value.0
    ensures r.Some? ==> var (name, text) := CookiePair(value).value;
                        r.value.wirePair == (if name == "" then text else name + "=" + text)
    ensures r.Some? ==> r.value.path != "" && r.value.path[0] == '/'
    ensures r.Some? ==> if r.value.hostOnly then r.value.domain == originHost
                        else DomainMatches(lib, originHost, r.value.domain)
    ensures r.Some? && lib.hasHostPrefix(r.value.name) ==>
              r.value.secure && r.value.hostOnly && r.value.path == "/"
    ensures r.Some? && lib.hasSecurePrefix(r.value.name) ==> r.value.secure
  {
    var pair := CookiePair(value);
    if HasDisallowedControl(value) || pair.None? then None
    else
      var (name, cookieValue) := pair.value;
      if |name| + |cookieValue| > MAX_COOKIE_PAIR_OCTETS || !IsAscii(name) || !IsAscii(cookieValue) then None
      else
        var a := AttributesOf(lib, SplitAll(value, ';')[1..], now);
        Admit(lib, name, cookieValue, a, originHost, requestPath, originSecure)
  }

  /** The parse with the attribute loop. */
  method ParseSetCookie(lib: Library, value: string, originHost: string, requestPath: string,
                        originSecure: bool, now: Time) returns (r: Option<StoredCookie>)
    ensures r == Parse(lib, value, originHost, requestPath, originSecure, now)
  {
    if HasDisallowedControl(value) {
      return None;
    }
    var pair := CookiePair(value);
    if pair.None? {
      return None;
    }
    var (name, cookieValue) := pair.value;
    if |name| + |cookieValue| > MAX_COOKIE_PAIR_OCTETS || !IsAscii(name) || !IsAscii(cookieValue) {
      return None;
    }
    var a := ParseAttributes(lib, value, now);
    r := Admit(lib, name, cookieValue, a, originHost, requestPath, originSecure);
  }

  /** A parsed cookie matches the address that set it iff the path does; host and security
      always do. */
  lemma ParsedMatchesIff(lib: Library, value: string, host: string, path: string, secure: bool, now: Time)
    requires Parse(lib, value, host, path, secure, now).Some?
    ensures var c := Parse(lib, value, host, path, secure, now).value;
            Matches(lib, c, host, path, secure) <==> PathMatches(path, c.path)
  {
  }

  /** A cookie without a Path attribute matches the request that set it. */
  lemma ParsedMatchesOrigin(lib: Library, value: string, host: string, path: string, secure: bool, now: Time)
    requires path != "" && path[0] == '/'
    requires Parse(lib, value, host, path, secure, now).Some?
    requires forall i :: 1 <= i < |SplitAll(value, ';')| ==> !IsAttribute(SplitAll(value, ';')[i], "path")
    ensures Matches(lib, Parse(lib, value, host, path, secure, now).value, host, path, secure)
  {
    var raws := SplitAll(value, ';')[1..];
    assert forall i :: 0 <= i < |raws| ==> raws[i] == SplitAll(value, ';')[i + 1];
    NoPathAttribute(lib, raws, now);
    ParsedPath(lib, value, host, path, secure, now);
    ParsedMatchesIff(lib, value, host, path, secure, now);
  }

  lemma NoPathAttribute(lib: Library, raws: seq<string>, now: Time)
    requires forall i :: 0 <= i < |raws| ==> !IsAttribute(raws[i], "path")
    ensures AttributesOf(lib, raws, now).path.None?
  {
    AttributesMeaning(lib, raws, now);
  }

  lemma ParsedPath(lib: Library, value: string, host: string, path: string, secure: bool, now: Time)
    requires Parse(lib, value, host, path, secure, now).Some?
    ensures Parse(lib, value, host, path, secure, now).value.path
            == CookiePath(AttributesOf(lib, SplitAll(value, ';')[1..], now).path, path)
  {
  }

  /** A Set-Cookie value is its pair and its raw attributes with a semicolon before each: nothing
      between the semicolons is read twice or skipped. */
  lemma ValueIsPairAndAttributes(value: string)
    ensures var pieces := SplitAll(value, ';');
            && value[..IndexOf(value, ';')] == pieces[0]
            && JoinWith(pieces, ';') == value
            && forall i :: 0 <= i < |pieces| ==> ';' !in pieces[i]
  {
    JoinInvertsSplitAll(value, ';');
    PiecesLackSeparator(value, ';');
    var i := IndexOf(value, ';');
    assert value[..|value|] == value;
  }
}
