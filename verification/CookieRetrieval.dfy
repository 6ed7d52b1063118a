/** What a request is sent, said over the strings of cookie and request: scope, expiry, the
    header text, recency and deletion (src/core/policy/cookies.rs; sections 5.1.3, 5.1.4, 5.3
    and 5.4 of RFC 6265). */
module CookieRetrieval {
  import opened Basics
  import opened CookieParsing
  import opened Cookies

  // ----- Scope -----

  /** Section 5.1.4 of RFC 6265: the cookie's path is a prefix that ends at a slash. */
  ghost predicate WithinPath(path: string, cookiePath: string) {
    || path == cookiePath
    || exists rest: string ::
         path == cookiePath + rest && rest != ""
         && (rest[0] == '/' || (cookiePath != "" && cookiePath[|cookiePath| - 1] == '/'))
  }

  lemma PathMatchesIff(path: string, cookiePath: string)
    ensures PathMatches(path, cookiePath) <==> WithinPath(path, cookiePath)
  {
    if cookiePath < path {
      var rest := path[|cookiePath|..];
      assert path == cookiePath + rest && rest[0] == path[|cookiePath|];
    }
  }

  /** Section 5.1.3 of RFC 6265: the host is the domain or a name under it, not an address. */
  ghost predicate UnderDomain(lib: Library, host: string, domain: string) {
    || host == domain
    || (!lib.isIp(host) && exists sub: string :: host == sub + "." + domain)
  }

  lemma DomainMatchesIff(lib: Library, host: string, domain: string)
    ensures DomainMatches(lib, host, domain) <==> UnderDomain(lib, host, domain)
  {
    if host != domain && DomainMatches(lib, host, domain) {
      var n := |host| - |domain| - 1;
      assert host == host[..n] + "." + domain;
    }
    if sub: string :| host == sub + "." + domain {
      assert host[|sub|] == '.' && host[|sub| + 1..] == domain;
    }
  }

  /** A host-only cookie goes to its host, another to every host under its domain. */
  ghost predicate InScope(lib: Library, c: StoredCookie, host: string, path: string, secure: bool) {
    && (if c.hostOnly then host == c.domain else UnderDomain(lib, host, c.domain))
    && WithinPath(path, c.path)
    && (c.secure ==> secure)
  }

  lemma MatchesIffInScope(lib: Library, c: StoredCookie, host: string, path: string, secure: bool)
    ensures Matches(lib, c, host, path, secure) <==> InScope(lib, c, host, path, secure)
  {
    DomainMatchesIff(lib, host, c.domain);
    PathMatchesIff(path, c.path);
  }

  /** From any reachable store the header is read, at its semicolons, as pairs of unexpired
      cookies in scope; and every such cookie has its place in it. */
  lemma HeaderSendsCookiesInScope(lib: Library, ops: seq<Op>, now: Time, host: string, path: string, secure: bool)
    ensures var cookies := AfterPurge(AfterAll(lib, ops), now).cookies;
            var order := Order(lib, cookies, host, path, secure);
            && (order != [] ==> ReadsAs(JoinPairs(cookies, order), cookies, order))
            && (forall k :: 0 <= k < |order| ==>
                  InScope(lib, cookies[order[k]], host, path, secure) && !IsExpired(cookies[order[k]], now))
            && (forall c :: c in AfterAll(lib, ops).cookies && !IsExpired(c, now)
                            && InScope(lib, c, host, path, secure) ==>
                  exists k :: 0 <= k < |order| && cookies[order[k]] == c)
  {
    var jar := AfterAll(lib, ops);
    var cookies := AfterPurge(jar, now).cookies;
    var order := Order(lib, cookies, host, path, secure);
    StoreStaysGood(lib, ops);
    PurgeKeeps(jar, now);
    PurgeContents(jar.cookies, now);
    SoundStore(AfterPurge(jar, now));
    if order != [] {
      JoinPairsReads(cookies, order);
    }
    forall k | 0 <= k < |order|
      ensures InScope(lib, cookies[order[k]], host, path, secure) && !IsExpired(cookies[order[k]], now)
    {
      OrderedMatches(lib, cookies, host, path, secure, k);
      MatchesIffInScope(lib, cookies[order[k]], host, path, secure);
      assert cookies[order[k]] in cookies;
    }
    forall c | c in jar.cookies && !IsExpired(c, now) && InScope(lib, c, host, path, secure)
      ensures exists k :: 0 <= k < |order| && cookies[order[k]] == c
    {
      assert c in cookies;
      MatchesIffInScope(lib, c, host, path, secure);
      MatchingOrdered(lib, cookies, host, path, secure, c);
    }
  }

  lemma SoundStore(jar: Jar)
    requires Good(jar)
    ensures PairsSound(jar.cookies)
  {
    forall i | 0 <= i < |jar.cookies| ensures PairSound(jar.cookies[i]) {
      assert EachOk(jar.cookies[i], jar);
    }
  }

  lemma OrderedMatches(lib: Library, cookies: seq<StoredCookie>, host: string, path: string, secure: bool, k: nat)
    requires k < |Order(lib, cookies, host, path, secure)|
    ensures Matches(lib, cookies[Order(lib, cookies, host, path, secure)[k]], host, path, secure)
  {
    var order := Order(lib, cookies, host, path, secure);
    ListsPickedOnce(cookies, Matcher(lib, host, path, secure), |cookies|, order[k]);
    assert order[k] in multiset(order);
  }

  lemma MatchingOrdered(lib: Library, cookies: seq<StoredCookie>, host: string, path: string, secure: bool,
                        c: StoredCookie)
    requires c in cookies && Matches(lib, c, host, path, secure)
    ensures var order := Order(lib, cookies, host, path, secure);
            exists k :: 0 <= k < |order| && cookies[order[k]] == c
  {
    var order := Order(lib, cookies, host, path, secure);
    var i :| 0 <= i < |cookies| && cookies[i] == c;
    ListsPickedOnce(cookies, Matcher(lib, host, path, secure), |cookies|, i);
    assert i in multiset(order);
    var k :| 0 <= k < |order| && order[k] == i;
  }

  // ----- Expiry -----

  /** Max-Age decides, and Expires only without a readable Max-Age. */
  lemma MaxAgePrecedes(lib: Library, value: string, host: string, path: string, secure: bool, now: Time)
    requires Parse(lib, value, host, path, secure, now).Some?
    ensures var raws := SplitAll(value, ';')[1..];
            exists age, date ::
              && IsLatest(raws, MaxAgeOf(now), age)
              && IsLatest(raws, ExpiresOf(lib, now), date)
              && Parse(lib, value, host, path, secure, now).value.expiresAt == if age.Some? then age else date
  {
    var raws := SplitAll(value, ';')[1..];
    var a := AttributesOf(lib, raws, now);
    AttributesMeaning(lib, raws, now);
    assert IsLatest(raws, MaxAgeOf(now), a.maxAge) && IsLatest(raws, ExpiresOf(lib, now), a.expires);
    ParsedExpiry(lib, value, host, path, secure, now);
  }

  lemma ParsedExpiry(lib: Library, value: string, host: string, path: string, secure: bool, now: Time)
    requires Parse(lib, value, host, path, secure, now).Some?
    ensures var a := AttributesOf(lib, SplitAll(value, ';')[1..], now);
            Parse(lib, value, host, path, secure, now).value.expiresAt == Or(a.maxAge, a.expires)
  {
  }

  lemma LatestIsOne<T>(raws: seq<string>, read: string -> Option<T>, a: Option<T>, b: Option<T>)
    requires IsLatest(raws, read, a) && IsLatest(raws, read, b)
    ensures a == b
  {
    if a.Some? && b.Some? {
      var i :| 0 <= i < |raws| && read(raws[i]) == a && forall j :: i < j < |raws| ==> read(raws[j]).None?;
      var k :| 0 <= k < |raws| && read(raws[k]) == b && forall j :: k < j < |raws| ==> read(raws[j]).None?;
      assert i == k;
    }
  }

  /** A kept cookie whose last readable Max-Age says `age` is there for later requests until
      that time and no longer, whatever its Expires attributes say. */
  lemma MaxAgeDecides(lib: Library, ops: seq<Op>, value: string, host: string, path: string, secure: bool,
                      now: Time, later: Time, age: Time)
    requires IsLatest(SplitAll(value, ';')[1..], MaxAgeOf(now), Some(age))
    ensures var before := AfterAll(lib, ops);
            var parsed := Parse(lib, value, host, path, secure, now);
            var sent := AfterPurge(AfterOp(lib, before, StoreOp(value, host, path, secure, now)), later).cookies;
            Kept(lib, before, parsed, secure, now) ==> (Stored(before, parsed.value) in sent <==> later < age)
  {
    var parsed := Parse(lib, value, host, path, secure, now);
    if parsed.Some? {
      var raws := SplitAll(value, ';')[1..];
      AttributesMeaning(lib, raws, now);
      LatestIsOne(raws, MaxAgeOf(now), AttributesOf(lib, raws, now).maxAge, Some(age));
      ParsedExpiry(lib, value, host, path, secure, now);
    }
    StoredCookieIsSentBack(lib, ops, value, host, path, secure, now, later);
  }

  // ----- Deletion and refusal -----

  /** Storing an expired cookie deletes the one of its identity and no other; nothing is added. */
  lemma ExpiredDeletes(lib: Library, ops: seq<Op>, value: string, host: string, path: string, secure: bool, now: Time)
    ensures var before := AfterAll(lib, ops);
            var parsed := Parse(lib, value, host, path, secure, now);
            var after := AfterOp(lib, before, StoreOp(value, host, path, secure, now));
            parsed.Some? && IsExpired(parsed.value, now) && (secure || !Overlays(lib, before.cookies, parsed.value)) ==>
              forall c :: c in after.cookies <==> c in before.cookies && !SameIdentity(c, parsed.value)
  {
    var before := AfterAll(lib, ops);
    var parsed := Parse(lib, value, host, path, secure, now);
    StoreStaysGood(lib, ops);
    if parsed.Some? {
      DeletesIdentity(before.cookies, parsed.value, before.nextCreation < U64_MAX);
    }
  }

  lemma DeletesIdentity(cookies: seq<StoredCookie>, candidate: StoredCookie, strict: bool)
    requires Pairwise(cookies, strict)
    ensures var r := Find(cookies, candidate);
            var after := if r.None? then cookies else RemoveAt(cookies, r.value);
            forall c :: c in after <==> c in cookies && !SameIdentity(c, candidate)
  {
    var r := Find(cookies, candidate);
    if r.Some? {
      forall c ensures c in RemoveAt(cookies, r.value) <==> c in cookies && !SameIdentity(c, candidate) {
        if c in RemoveAt(cookies, r.value) {
          OthersStay(cookies, candidate, r.value, c, strict);
        }
        if c in cookies && !SameIdentity(c, candidate) {
          StaysAmongOthers(cookies, r.value, c);
        }
      }
    }
  }

  lemma StaysAmongOthers(cookies: seq<StoredCookie>, v: nat, c: StoredCookie)
    requires v < |cookies| && c in cookies && c != cookies[v]
    ensures c in RemoveAt(cookies, v)
  {
    var k :| 0 <= k < |cookies| && cookies[k] == c;
    assert RemoveAt(cookies, v)[if k < v then k else k - 1] == c;
  }

  lemma OthersStay(cookies: seq<StoredCookie>, candidate: StoredCookie, v: nat, c: StoredCookie, strict: bool)
    requires v < |cookies| && Pairwise(cookies, strict) && SameIdentity(cookies[v], candidate)
    requires c in RemoveAt(cookies, v)
    ensures c in cookies && !SameIdentity(c, candidate)
  {
    var after := RemoveAt(cookies, v);
    var k :| 0 <= k < |after| && after[k] == c;
    if k < v {
      assert PairOk(cookies[k], cookies[v], strict);
    } else {
      assert cookies[k + 1] == c && PairOk(cookies[v], cookies[k + 1], strict);
    }
  }

  /** The Secure cookie that a new one of this name, domain and path would overlay. */
  ghost predicate Covers(lib: Library, held: StoredCookie, c: StoredCookie) {
    && held.secure && held.name == c.name
    && (UnderDomain(lib, c.domain, held.domain) || UnderDomain(lib, held.domain, c.domain))
    && WithinPath(c.path, held.path)
  }

  lemma OverlaysIff(lib: Library, cookies: seq<StoredCookie>, c: StoredCookie)
    ensures Overlays(lib, cookies, c) <==> exists held :: held in cookies && Covers(lib, held, c)
  {
    forall held ensures Covers(lib, held, c) <==>
                        (&& held.secure && held.name == c.name
                         && (DomainMatches(lib, c.domain, held.domain) || DomainMatches(lib, held.domain, c.domain))
                         && PathMatches(c.path, held.path))
    {
      DomainMatchesIff(lib, c.domain, held.domain);
      DomainMatchesIff(lib, held.domain, c.domain);
      PathMatchesIff(c.path, held.path);
    }
    if Overlays(lib, cookies, c) {
      var i :| 0 <= i < |cookies| && cookies[i].secure && cookies[i].name == c.name
               && (DomainMatches(lib, c.domain, cookies[i].domain) || DomainMatches(lib, cookies[i].domain, c.domain))
               && PathMatches(c.path, cookies[i].path);
      assert cookies[i] in cookies && Covers(lib, cookies[i], c);
    }
    if held :| held in cookies && Covers(lib, held, c) {
      var i :| 0 <= i < |cookies| && cookies[i] == held;
    }
  }

  // ----- Acceptance -----

  /** The Domain attribute without its leading dot. */
  function NamedDomain(a: Attributes): string {
    if a.domain.None? then ""
    else if a.domain.value != "" && a.domain.value[0] == '.' then a.domain.value[1..] else a.domain.value
  }

  /** A named domain is one that the origin is under. */
  ghost predicate DomainAllowed(lib: Library, a: Attributes, originHost: string) {
    NamedDomain(a) == "" ||
    (&& IsAscii(NamedDomain(a))
     && exists domain :: lib.canonical(NamedDomain(a)) == Some(domain) && UnderDomain(lib, originHost, domain))
  }

  /** The name prefixes promise a Secure cookie, and the stronger one a host-only cookie with a
      Path attribute and the root path; a nameless value may not imitate them. */
  predicate PrefixKept(lib: Library, name: string, text: string, a: Attributes, requestPath: string) {
    && (lib.hasSecurePrefix(name) ==> a.secure)
    && (lib.hasHostPrefix(name) ==>
          a.secure && NamedDomain(a) == "" && a.path.Some? && CookiePath(a.path, requestPath) == "/")
    && (name == "" ==> !lib.hasSecurePrefix(text) && !lib.hasHostPrefix(text))
  }

  lemma ScopeIff(lib: Library, a: Attributes, originHost: string)
    ensures Scope(lib, a.domain, originHost).Some? <==> DomainAllowed(lib, a, originHost)
    ensures Scope(lib, a.domain, originHost).Some? ==>
              (Scope(lib, a.domain, originHost).value.1 <==> NamedDomain(a) == "")
  {
    var d := NamedDomain(a);
    if d != "" && IsAscii(d) && lib.canonical(d).Some? {
      DomainMatchesIff(lib, originHost, lib.canonical(d).value);
    }
  }

  /** A Set-Cookie value is accepted iff it has no control characters, a nonempty ASCII pair
      within the size limit, a domain that the origin is under, Secure only from a secure
      origin, and keeps what its name promises. */
  lemma AcceptedIff(lib: Library, value: string, host: string, path: string, secure: bool, now: Time)
    ensures var a := AttributesOf(lib, SplitAll(value, ';')[1..], now);
            Parse(lib, value, host, path, secure, now).Some? <==>
              && !HasDisallowedControl(value) && CookiePair(value).Some?
              && |CookiePair(value).value.0| + |CookiePair(value).value.1| <= MAX_COOKIE_PAIR_OCTETS
              && IsAscii(CookiePair(value).value.0) && IsAscii(CookiePair(value).value.1)
              && DomainAllowed(lib, a, host) && (a.secure ==> secure)
              && PrefixKept(lib, CookiePair(value).value.0, CookiePair(value).value.1, a, path)
  {
    ScopeIff(lib, AttributesOf(lib, SplitAll(value, ';')[1..], now), host);
  }

  /** A Secure cookie of the same name, whose domain lies under the new one's or above it and
      whose path the new path is within, is not overlaid from a non-secure origin: the store is
      left as it was. */
  lemma OverlayRefused(lib: Library, ops: seq<Op>, value: string, host: string, path: string, now: Time,
                       held: StoredCookie)
    requires held in AfterAll(lib, ops).cookies && held.secure
    ensures var before := AfterAll(lib, ops);
            var parsed := Parse(lib, value, host, path, false, now);
            && parsed.Some? && parsed.value.name == held.name
            && (|| UnderDomain(lib, parsed.value.domain, held.domain)
                || UnderDomain(lib, held.domain, parsed.value.domain))
            && WithinPath(parsed.value.path, held.path) ==>
              AfterOp(lib, before, StoreOp(value, host, path, false, now)) == before
  {
    var before := AfterAll(lib, ops);
    var parsed := Parse(lib, value, host, path, false, now);
    if parsed.Some? {
      DomainMatchesIff(lib, parsed.value.domain, held.domain);
      DomainMatchesIff(lib, held.domain, parsed.value.domain);
      PathMatchesIff(parsed.value.path, held.path);
      var i :| 0 <= i < |before.cookies| && before.cookies[i] == held;
    }
  }

  // ----- Recency -----

  /** A retrieval makes the cookies it lists the most recently used: each was, below counter
      saturation, used later than every cookie that it does not list. */
  lemma ListedAreMostRecent(lib: Library, ops: seq<Op>, host: string, path: string, secure: bool, now: Time,
                            i: nat, j: nat)
    requires AfterAll(lib, ops).nextAccess < U64_MAX
    requires var cookies := AfterPurge(AfterAll(lib, ops), now).cookies;
             && i < |cookies| && j < |cookies|
             && Matches(lib, cookies[i], host, path, secure) && !Matches(lib, cookies[j], host, path, secure)
    ensures var after := AfterOp(lib, AfterAll(lib, ops), HeaderOp(host, path, secure, now)).cookies;
            && |after| == |AfterPurge(AfterAll(lib, ops), now).cookies|
            && after[j].lastAccess < after[i].lastAccess
            && after[j] == AfterPurge(AfterAll(lib, ops), now).cookies[j]
  {
    var jar := AfterPurge(AfterAll(lib, ops), now);
    StoreStaysGood(lib, ops);
    PurgeKeeps(AfterAll(lib, ops), now);
    assert EachOk(jar.cookies[j], jar);
    MatchingOrdered(lib, jar.cookies, host, path, secure, jar.cookies[i]);
  }
}
