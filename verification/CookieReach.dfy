/** Reachable stores at their caps, and the cookies they lose (src/core/policy/cookies.rs): the
    exceptional cases that module Cookies characterises do occur. */
module CookieReach {
  import opened Basics
  import opened CookieParsing
  import opened Cookies

  // ----- Full stores are reachable -----

  /** No addresses, no dates, no prefixes. */
  const PLAIN: Library := Library(_ => false, _ => None, _ => None, _ => false, _ => false)

  function Letters(n: nat): string { seq(n, _ => 'a') }

  function SecureValue(n: nat): string { Letters(n) + "=;secure" }

  lemma SecureAttribute(now: Time)
    ensures SplitAll("secure", ';') == ["secure"]
    ensures AttributesOf(PLAIN, ["secure"], now) == NO_ATTRIBUTES.(secure := true)
  {
    var raw: string := "secure";
    assert IndexOf(raw, ';') == |raw| && IndexOf(raw, '=') == |raw|;
    assert raw[..|raw|] == raw && Trim(raw) == raw && Lower(raw) == raw;
    assert "domain"[0] == 'd' && "path"[0] == 'p' && raw[0] == 's';
    assert WithAttribute(PLAIN, NO_ATTRIBUTES, raw, now) == NO_ATTRIBUTES.(secure := true);
    var raws: seq<string> := [raw];
    assert raws[..0] == [];
  }

  lemma SecureValuePair(n: nat)
    requires n > 0
    ensures IndexOf(SecureValue(n), ';') == n + 1 && SecureValue(n)[..n + 1] == Letters(n) + "="
    ensures CookiePair(SecureValue(n)) == Some((Letters(n), ""))
  {
    var value, pair := SecureValue(n), Letters(n) + "=";
    FirstIndex(value, ';', n + 1);
    assert value[..n + 1] == pair;
    FirstIndex(pair, '=', n);
    assert pair[..n] == Letters(n) && pair[n + 1..] == "";
  }

  lemma SecureValueSplits(n: nat)
    requires n > 0
    ensures SplitAll(SecureValue(n), ';')[1..] == ["secure"]
  {
    var parts: seq<string> := [Letters(n) + "=", "secure"];
    assert parts[1..] == ["secure"];
    assert SecureValue(n) == JoinWith(parts, ';') by {
      assert Letters(n) + "=;secure" == Letters(n) + "=" + ";" + "secure";
    }
    SplitAllInvertsJoin(parts, ';');
  }

  lemma SecureValueIsClean(n: nat)
    ensures !HasDisallowedControl(SecureValue(n))
  {
    var value := SecureValue(n);
    assert forall i :: 0 <= i < |value| ==> value[i] in "a=;secure";
  }

  function SecureCookie(n: nat, host: string): StoredCookie {
    StoredCookie(Letters(n), Letters(n) + "=", host, "/", true, true, None, 0, 0)
  }

  lemma AdmitsSecure(n: nat, host: string)
    requires n > 0
    ensures Admit(PLAIN, Letters(n), "", NO_ATTRIBUTES.(secure := true), host, "/", true) == Some(SecureCookie(n, host))
  {
    assert WirePair(Letters(n), "") == Letters(n) + "=";
    assert RightmostSlash("/") == 0;
  }

  lemma SecureValueParses(n: nat, host: string)
    requires 0 < n <= MAX_COOKIE_PAIR_OCTETS
    ensures Parse(PLAIN, SecureValue(n), host, "/", true, 0) == Some(SecureCookie(n, host))
  {
    SecureValuePair(n);
    SecureValueSplits(n);
    SecureValueIsClean(n);
    SecureAttribute(0);
    AdmitsSecure(n, host);
  }

  /** The host and the length of the name of the i-th cookie: 50 cookies to a host. */
  function HostOf(i: nat): string { Letters(i / MAX_COOKIES_PER_DOMAIN + 1) }

  function LengthOf(i: nat): nat { i % MAX_COOKIES_PER_DOMAIN + 1 }

  /** `n` Secure cookies, stored one after the other and not used since. */
  predicate Packed(jar: Jar, n: nat) {
    && |jar.cookies| == n && jar.nextCreation == n && jar.nextAccess == n
    && forall i :: 0 <= i < n ==>
         jar.cookies[i] == SecureCookie(LengthOf(i), HostOf(i)).(creation := i, lastAccess := i)
  }

  lemma InBlock(i: nat, block: nat)
    ensures HostOf(i) == Letters(block + 1) ==> MAX_COOKIES_PER_DOMAIN * block <= i
  {
    assert |HostOf(i)| == i / MAX_COOKIES_PER_DOMAIN + 1 && |Letters(block + 1)| == block + 1;
  }

  lemma {:induction false} PackedCount(jar: Jar, n: nat, m: nat, block: nat)
    requires Packed(jar, n) && m <= n
    ensures CountDomain(jar.cookies[..m], Letters(block + 1))
            <= if m <= MAX_COOKIES_PER_DOMAIN * block then 0 else m - MAX_COOKIES_PER_DOMAIN * block
  {
    if m == 0 {
    } else {
      PackedCount(jar, n, m - 1, block);
      assert jar.cookies[..m][..m - 1] == jar.cookies[..m - 1];
      InBlock(m - 1, block);
    }
  }

  lemma NewIdentity(jar: Jar, n: nat)
    requires Packed(jar, n)
    ensures Find(jar.cookies, SecureCookie(LengthOf(n), HostOf(n))).None?
  {
    forall i | 0 <= i < n ensures !SameIdentity(jar.cookies[i], SecureCookie(LengthOf(n), HostOf(n))) {
      assert |jar.cookies[i].name| == LengthOf(i) && |jar.cookies[i].domain| == i / MAX_COOKIES_PER_DOMAIN + 1;
      assert |Letters(LengthOf(n))| == LengthOf(n) && |HostOf(n)| == n / MAX_COOKIES_PER_DOMAIN + 1;
    }
  }

  lemma StaysWithinCaps(jar: Jar, n: nat)
    requires Packed(jar, n) && n < MAX_COOKIES
    ensures var grown := Grown(jar, SecureCookie(LengthOf(n), HostOf(n)));
            TrimGlobal(TrimDomain(grown, HostOf(n))) == grown
  {
    PackedCount(jar, n, n, n / MAX_COOKIES_PER_DOMAIN);
    assert jar.cookies[..n] == jar.cookies;
    GrownCounts(jar, SecureCookie(LengthOf(n), HostOf(n)), HostOf(n));
  }

  lemma GrownPacked(jar: Jar, n: nat)
    requires Packed(jar, n)
    ensures Packed(Jar(Grown(jar, SecureCookie(LengthOf(n), HostOf(n))), n + 1, n + 1), n + 1)
  {
  }

  lemma PacksOneMore(jar: Jar, n: nat)
    requires Packed(jar, n) && n < MAX_COOKIES
    ensures Packed(AfterOp(PLAIN, jar, StoreOp(SecureValue(LengthOf(n)), HostOf(n), "/", true, 0)), n + 1)
  {
    var c := SecureCookie(LengthOf(n), HostOf(n));
    SecureValueParses(LengthOf(n), HostOf(n));
    NewIdentity(jar, n);
    StaysWithinCaps(jar, n);
    assert AfterStore(PLAIN, jar, c, true, 0) == Jar(Grown(jar, c), n + 1, n + 1);
    GrownPacked(jar, n);
  }

  /** Every number of Secure cookies up to the global cap can be stored, 50 to a host. */
  lemma {:induction false} ReachesPacked(n: nat) returns (ops: seq<Op>)
    requires n <= MAX_COOKIES
    ensures Packed(AfterAll(PLAIN, ops), n)
  {
    if n == 0 {
      ops := [];
    } else {
      var fewer := ReachesPacked(n - 1);
      ops := fewer + [StoreOp(SecureValue(LengthOf(n - 1)), HostOf(n - 1), "/", true, 0)];
      assert ops[..|ops| - 1] == fewer;
      PacksOneMore(AfterAll(PLAIN, fewer), n - 1);
    }
  }

  // ----- Cookies that are lost -----

  function PlainCookie(host: string): StoredCookie {
    StoredCookie("b", "b=", host, "/", true, false, None, 0, 0)
  }

  lemma PlainValueParses(host: string, secure: bool)
    ensures Parse(PLAIN, "b=", host, "/", secure, 0) == Some(PlainCookie(host))
  {
    var value := "b=";
    assert IndexOf(value, ';') == 2 && value[..2] == value;
    FirstIndex(value, '=', 1);
    assert value[..1] == "b" && value[2..] == "";
    assert SplitAll(value, ';')[1..] == [];
    assert WirePair("b", "") == "b=";
  }

  lemma PlainIsNew(jar: Jar, n: nat, host: string, secure: bool)
    requires Packed(jar, n)
    ensures Inserts(PLAIN, jar, PlainCookie(host), secure, 0)
  {
    assert forall i :: 0 <= i < n ==> jar.cookies[i].name[0] != PlainCookie(host).name[0];
  }

  lemma {:induction false} OneDomain(cookies: seq<StoredCookie>, domain: string)
    requires forall i :: 0 <= i < |cookies| ==> cookies[i].domain == domain
    ensures CountDomain(cookies, domain) == |cookies|
  {
    if cookies == [] {
    } else {
      OneDomain(cookies[..|cookies| - 1], domain);
    }
  }

  lemma EvictsItself(jar: Jar)
    requires Good(jar) && Packed(jar, MAX_COOKIES_PER_DOMAIN)
    ensures Evicted(jar, PlainCookie(Letters(1))) == Some(|jar.cookies|)
    ensures RemoveAt(Grown(jar, PlainCookie(Letters(1))), |jar.cookies|) == jar.cookies
  {
    assert forall i :: 0 <= i < |jar.cookies| ==> jar.cookies[i].domain == Letters(1) && jar.cookies[i].secure;
    OneDomain(jar.cookies, Letters(1));
    NewestEvictedIff(jar, PlainCookie(Letters(1)));
  }

  /** The last case of `NewCookieSurvivesIff` does occur, from either kind of origin: a reachable
      store inserts a cookie that is gone when the store returns. */
  lemma NewCookieIsLost(secure: bool) returns (ops: seq<Op>)
    ensures var before := AfterAll(PLAIN, ops);
            var parsed := Parse(PLAIN, "b=", Letters(1), "/", secure, 0);
            && parsed.Some? && Inserts(PLAIN, before, parsed.value, secure, 0)
            && |before.cookies| == MAX_COOKIES_PER_DOMAIN
            && AfterOp(PLAIN, before, StoreOp("b=", Letters(1), "/", secure, 0)).cookies == before.cookies
  {
    ops := ReachesPacked(MAX_COOKIES_PER_DOMAIN);
    var before := AfterAll(PLAIN, ops);
    PlainValueParses(Letters(1), secure);
    PlainIsNew(before, MAX_COOKIES_PER_DOMAIN, Letters(1), secure);
    StoreStaysGood(PLAIN, ops);
    EvictsItself(before);
    StoreEvictsAtMostOne(PLAIN, ops, "b=", Letters(1), "/", secure, 0);
  }

  lemma FullStoreFacts(jar: Jar)
    requires Packed(jar, MAX_COOKIES)
    ensures CountDomain(jar.cookies, "b") == 0 && LeastRecent(jar.cookies, 0) && jar.cookies[0].secure
  {
    assert forall i :: 0 <= i < |jar.cookies| ==> jar.cookies[i].domain[0] != "b"[0];
  }

  /** And a store from a non-secure origin does cost a Secure cookie of another host its place,
      in a reachable store that is full. */
  lemma SecureCookieIsLost() returns (ops: seq<Op>)
    ensures var before := AfterAll(PLAIN, ops);
            && |before.cookies| == MAX_COOKIES && before.cookies[0].secure
            && before.cookies[0] !in AfterOp(PLAIN, before, StoreOp("b=", "b", "/", false, 0)).cookies
  {
    ops := ReachesPacked(MAX_COOKIES);
    var before := AfterAll(PLAIN, ops);
    PlainValueParses("b", false);
    PlainIsNew(before, MAX_COOKIES, "b", false);
    FullStoreFacts(before);
    InsecureStoreSparesSecure(PLAIN, ops, "b=", "b", "/", 0, 0);
  }
}
