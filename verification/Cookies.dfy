/** The cookie store: identity replacement, two caps with priority eviction, secure-overlay
    refusal and ordered retrieval (src/core/policy/cookies.rs; sections 5.3 and 5.4 of
    RFC 6265). */
module Cookies {
  import opened Basics
  import opened CookieParsing

  const MAX_COOKIES_PER_DOMAIN: nat := 50
  const MAX_COOKIES: nat := 3000

  // ----- The store as a value -----

  datatype Jar = Jar(cookies: seq<StoredCookie>, nextCreation: nat, nextAccess: nat)

  function SatInc(n: nat): nat { if n >= U64_MAX then n else n + 1 }

  function RemoveAt(cookies: seq<StoredCookie>, i: nat): seq<StoredCookie>
    requires i < |cookies|
  {
    cookies[..i] + cookies[i + 1..]
  }

  /** Which cookies an eviction may choose from. */
  datatype Pool = Everyone | OfDomain(domain: string, nonSecureOnly: bool)

  predicate Eligible(pool: Pool, c: StoredCookie) {
    match pool
    case Everyone => true
    case OfDomain(domain, nonSecureOnly) => c.domain == domain && (nonSecureOnly ==> !c.secure)
  }

  /** Lexicographic order of (last_access, creation). */
  predicate Older(a: StoredCookie, b: StoredCookie) {
    a.lastAccess < b.lastAccess || (a.lastAccess == b.lastAccess && a.creation < b.creation)
  }

  /** min_by_key over the first `n` cookies: the first of the oldest eligible ones. */
  function Oldest(cookies: seq<StoredCookie>, pool: Pool, n: nat): (r: Option<nat>)
    requires n <= |cookies|
    ensures r.Some? ==> r.value < n && Eligible(pool, cookies[r.value])
    ensures r.Some? ==> forall j :: 0 <= j < n && Eligible(pool, cookies[j]) ==> !Older(cookies[j], cookies[r.value])
    ensures r.Some? ==>
              forall j :: 0 <= j < r.value && Eligible(pool, cookies[j]) ==> Older(cookies[r.value], cookies[j])
    ensures r.None? ==> forall j :: 0 <= j < n ==> !Eligible(pool, cookies[j])
  {
    if n == 0 then None
    else
      var best := Oldest(cookies, pool, n - 1);
      if !Eligible(pool, cookies[n - 1]) then best
      else if best.None? || Older(cookies[n - 1], cookies[best.value]) then Some(n - 1)
      else best
  }

  function CountDomain(cookies: seq<StoredCookie>, domain: string): (n: nat)
    ensures n <= |cookies|
    ensures n > 0 ==> exists i :: 0 <= i < |cookies| && cookies[i].domain == domain
  {
    if cookies == [] then 0
    else CountDomain(cookies[..|cookies| - 1], domain) + if cookies[|cookies| - 1].domain == domain then 1 else 0
  }

  predicate HasNonSecure(cookies: seq<StoredCookie>, domain: string) {
    exists i :: 0 <= i < |cookies| && cookies[i].domain == domain && !cookies[i].secure
  }

  function DomainPool(cookies: seq<StoredCookie>, domain: string): Pool {
    OfDomain(domain, HasNonSecure(cookies, domain))
  }

  /** The victim of the per-domain cap. */
  function DomainVictim(cookies: seq<StoredCookie>, domain: string): (i: nat)
    requires CountDomain(cookies, domain) > 0
    ensures i < |cookies| && Eligible(DomainPool(cookies, domain), cookies[i])
  {
    Oldest(cookies, DomainPool(cookies, domain), |cookies|).value
  }

  /** The victim of the global cap. */
  function GlobalVictim(cookies: seq<StoredCookie>): (i: nat)
    requires cookies != []
    ensures i < |cookies|
  {
    assert Eligible(Everyone, cookies[0]);
    Oldest(cookies, Everyone, |cookies|).value
  }

  function TrimDomain(cookies: seq<StoredCookie>, domain: string): seq<StoredCookie>
    decreases |cookies|
  {
    if CountDomain(cookies, domain) <= MAX_COOKIES_PER_DOMAIN then cookies
    else TrimDomain(RemoveAt(cookies, DomainVictim(cookies, domain)), domain)
  }

  function TrimGlobal(cookies: seq<StoredCookie>): seq<StoredCookie>
    decreases |cookies|
  {
    if |cookies| <= MAX_COOKIES then cookies else TrimGlobal(RemoveAt(cookies, GlobalVictim(cookies)))
  }

  predicate Overlays(lib: Library, cookies: seq<StoredCookie>, candidate: StoredCookie) {
    exists i :: 0 <= i < |cookies| &&
      var c := cookies[i];
      && c.secure && c.name == candidate.name
      && (DomainMatches(lib, candidate.domain, c.domain) || DomainMatches(lib, c.domain, candidate.domain))
      && PathMatches(candidate.path, c.path)
  }

  /** Position of the first cookie with the candidate's identity. */
  function Find(cookies: seq<StoredCookie>, candidate: StoredCookie): (r: Option<nat>)
    ensures r.Some? ==> r.value < |cookies| && SameIdentity(cookies[r.value], candidate)
    ensures r.Some? ==> forall i :: 0 <= i < r.value ==> !SameIdentity(cookies[i], candidate)
    ensures r.None? ==> forall i :: 0 <= i < |cookies| ==> !SameIdentity(cookies[i], candidate)
  {
    if cookies == [] then None
    else
      var r := Find(cookies[..|cookies| - 1], candidate);
      if r.Some? then r
      else if SameIdentity(cookies[|cookies| - 1], candidate) then Some(|cookies| - 1) else None
  }

  function Fresh(jar: Jar, candidate: StoredCookie): StoredCookie {
    candidate.(lastAccess := jar.nextAccess, creation := jar.nextCreation)
  }

  /** `CookieStore::store` after parsing. */
  function AfterStore(lib: Library, jar: Jar, candidate: StoredCookie, originSecure: bool, now: Time): Jar {
    if !originSecure && Overlays(lib, jar.cookies, candidate) then jar
    else
      var existing := Find(jar.cookies, candidate);
      if IsExpired(candidate, now) then
        if existing.None? then jar else jar.(cookies := RemoveAt(jar.cookies, existing.value))
      else if existing.Some? then
        var i := existing.value;
        jar.(cookies := jar.cookies[i := candidate.(lastAccess := jar.nextAccess, creation := jar.cookies[i].creation)],
             nextAccess := SatInc(jar.nextAccess))
      else
        Jar(TrimGlobal(TrimDomain(jar.cookies + [Fresh(jar, candidate)], candidate.domain)),
            SatInc(jar.nextCreation), SatInc(jar.nextAccess))
  }

  function Unexpired(cookies: seq<StoredCookie>, now: Time): seq<StoredCookie> {
    if cookies == [] then []
    else
      var c := cookies[|cookies| - 1];
      Unexpired(cookies[..|cookies| - 1], now) + if IsExpired(c, now) then [] else [c]
  }

  function AfterPurge(jar: Jar, now: Time): Jar { jar.(cookies := Unexpired(jar.cookies, now)) }

  // ----- Retrieval -----

  /** The comparison of the sort: longer path first, then older creation. */
  predicate Before(cookies: seq<StoredCookie>, a: nat, b: nat)
    requires a < |cookies| && b < |cookies|
  {
    var m, n := Utf8Octets(cookies[a].path), Utf8Octets(cookies[b].path);
    m > n || (m == n && cookies[a].creation < cookies[b].creation)
  }

  predicate InBounds(cookies: seq<StoredCookie>, order: seq<nat>) {
    forall k :: 0 <= k < |order| ==> order[k] < |cookies|
  }

  /** Stable insertion: after everything that does not come strictly later. */
  function Insert(cookies: seq<StoredCookie>, order: seq<nat>, i: nat): (r: seq<nat>)
    requires i < |cookies| && InBounds(cookies, order)
    ensures InBounds(cookies, r)
  {
    if order == [] then [i]
    else if Before(cookies, i, order[0]) then [i] + order
    else [order[0]] + Insert(cookies, order[1..], i)
  }

  lemma {:induction false} InsertAdds(cookies: seq<StoredCookie>, order: seq<nat>, i: nat)
    requires i < |cookies| && InBounds(cookies, order)
    ensures multiset(Insert(cookies, order, i)) == multiset(order) + multiset{i}
  {
    if order == [] || Before(cookies, i, order[0]) {
    } else {
      InsertAdds(cookies, order[1..], i);
      assert order == [order[0]] + order[1..];
    }
  }

  /** The picked ones among the first `n` cookies, stably sorted. */
  function SortPicked(cookies: seq<StoredCookie>, pick: StoredCookie -> bool, n: nat): (order: seq<nat>)
    requires n <= |cookies|
    ensures InBounds(cookies, order)
  {
    if n == 0 then []
    else
      var rest := SortPicked(cookies, pick, n - 1);
      if pick(cookies[n - 1]) then Insert(cookies, rest, n - 1) else rest
  }

  function Matcher(lib: Library, host: string, path: string, secure: bool): StoredCookie -> bool {
    (c: StoredCookie) => Matches(lib, c, host, path, secure)
  }

  function Order(lib: Library, cookies: seq<StoredCookie>, host: string, path: string, secure: bool): seq<nat> {
    SortPicked(cookies, Matcher(lib, host, path, secure), |cookies|)
  }

  /** How often a position is listed. */
  function Times(order: seq<nat>, i: nat): nat { multiset(order)[i] }

  lemma InsertTimes(cookies: seq<StoredCookie>, order: seq<nat>, i: nat, k: nat)
    requires i < |cookies| && InBounds(cookies, order)
    ensures Times(Insert(cookies, order, i), k) == Times(order, k) + if k == i then 1 else 0
  {
    InsertAdds(cookies, order, i);
  }

  /** Each picked cookie is listed once, and no other. */
  lemma {:induction false} ListsPickedOnce(cookies: seq<StoredCookie>, pick: StoredCookie -> bool, n: nat, i: nat)
    requires n <= |cookies|
    ensures Times(SortPicked(cookies, pick, n), i) == if i < n && pick(cookies[i]) then 1 else 0
  {
    if n == 0 {
    } else {
      ListsPickedOnce(cookies, pick, n - 1, i);
      if pick(cookies[n - 1]) {
        InsertTimes(cookies, SortPicked(cookies, pick, n - 1), n - 1, i);
      }
    }
  }

  function JoinPairs(cookies: seq<StoredCookie>, order: seq<nat>): string
    requires InBounds(cookies, order)
  {
    if order == [] then ""
    else if |order| == 1 then cookies[order[0]].wirePair
    else JoinPairs(cookies, order[..|order| - 1]) + "; " + cookies[order[|order| - 1]].wirePair
  }

  /** Reading a header at its semicolons gives back the pairs in this order, each but the first
      after a space. */
  predicate ReadsAs(header: string, cookies: seq<StoredCookie>, order: seq<nat>)
    requires InBounds(cookies, order)
  {
    var pieces := SplitAll(header, ';');
    && |pieces| == |order|
    && forall k :: 0 <= k < |order| ==> pieces[k] == (if k == 0 then "" else " ") + cookies[order[k]].wirePair
  }

  function Pieces(cookies: seq<StoredCookie>, order: seq<nat>): (pieces: seq<string>)
    requires InBounds(cookies, order)
    ensures |pieces| == |order|
    ensures forall k :: 0 <= k < |order| ==> pieces[k] == (if k == 0 then "" else " ") + cookies[order[k]].wirePair
  {
    seq(|order|, k requires 0 <= k < |order| => (if k == 0 then "" else " ") + cookies[order[k]].wirePair)
  }

  lemma {:induction false} JoinPairsPieces(cookies: seq<StoredCookie>, order: seq<nat>)
    requires InBounds(cookies, order) && order != []
    ensures JoinPairs(cookies, order) == JoinWith(Pieces(cookies, order), ';')
  {
    var n := |order| - 1;
    if n == 0 {
      assert "" + cookies[order[0]].wirePair == cookies[order[0]].wirePair;
    } else {
      var front, last := JoinPairs(cookies, order[..n]), cookies[order[n]].wirePair;
      JoinPairsPieces(cookies, order[..n]);
      assert Pieces(cookies, order) == Pieces(cookies, order[..n]) + [" " + last];
      JoinWithSnoc(Pieces(cookies, order[..n]), " " + last, ';');
      assert front + "; " + last == front + ";" + (" " + last);
    }
  }

  lemma JoinPairsReads(cookies: seq<StoredCookie>, order: seq<nat>)
    requires InBounds(cookies, order) && order != [] && PairsSound(cookies)
    ensures ReadsAs(JoinPairs(cookies, order), cookies, order)
  {
    JoinPairsPieces(cookies, order);
    SplitAllInvertsJoin(Pieces(cookies, order), ';');
  }

  /** Every matching cookie gets the same new access stamp. */
  function Touched(lib: Library, cookies: seq<StoredCookie>, host: string, path: string, secure: bool, access: nat)
    : (r: seq<StoredCookie>)
    ensures |r| == |cookies|
    ensures forall i :: 0 <= i < |r| ==>
              r[i] == if Matches(lib, cookies[i], host, path, secure) then cookies[i].(lastAccess := access)
                      else cookies[i]
  {
    seq(|cookies|, i requires 0 <= i < |cookies| =>
      if Matches(lib, cookies[i], host, path, secure) then cookies[i].(lastAccess := access) else cookies[i])
  }

  /** The same, cookie by cookie in the order of the header. */
  function Stamped(cookies: seq<StoredCookie>, order: seq<nat>, access: nat): (r: seq<StoredCookie>)
    requires InBounds(cookies, order)
    ensures |r| == |cookies|
    ensures forall i :: 0 <= i < |r| ==> r[i] == if i in order then cookies[i].(lastAccess := access) else cookies[i]
  {
    if order == [] then cookies
    else
      var n := |order| - 1;
      assert order == order[..n] + [order[n]];
      var rest := Stamped(cookies, order[..n], access);
      rest[order[n] := rest[order[n]].(lastAccess := access)]
  }

  lemma StampedIsTouched(lib: Library, cookies: seq<StoredCookie>, host: string, path: string, secure: bool,
                         access: nat)
    ensures Stamped(cookies, Order(lib, cookies, host, path, secure), access)
            == Touched(lib, cookies, host, path, secure, access)
  {
    var order := Order(lib, cookies, host, path, secure);
    forall i | 0 <= i < |cookies| ensures i in order <==> Matches(lib, cookies[i], host, path, secure) {
      ListsPickedOnce(cookies, Matcher(lib, host, path, secure), |cookies|, i);
      assert i in order <==> i in multiset(order);
    }
  }

  function AfterHeader(lib: Library, jar: Jar, host: string, path: string, secure: bool): Jar {
    if Order(lib, jar.cookies, host, path, secure) == [] then jar
    else jar.(cookies := Touched(lib, jar.cookies, host, path, secure, jar.nextAccess),
              nextAccess := SatInc(jar.nextAccess))
  }

  // ----- The store as an object -----

  /** A pair that is there and cannot be taken for two. */
  predicate PairSound(c: StoredCookie) { c.wirePair != "" && ';' !in c.wirePair }

  predicate PairsSound(cookies: seq<StoredCookie>) { forall i :: 0 <= i < |cookies| ==> PairSound(cookies[i]) }

  method WriteHeader(cookies: seq<StoredCookie>, order: seq<nat>) returns (header: string)
    requires InBounds(cookies, order) && PairsSound(cookies)
    ensures header == JoinPairs(cookies, order)
    ensures order != [] ==> ReadsAs(header, cookies, order)
  {
    header := "";
    for k := 0 to |order|
      invariant header == JoinPairs(cookies, order[..k]) && (header == "" <==> k == 0)
    {
      assert order[..k + 1][..k] == order[..k];
      if header != "" {
        header := header + "; ";
      }
      header := header + cookies[order[k]].wirePair;
    }
    assert order[..|order|] == order;
    if order != [] {
      JoinPairsReads(cookies, order);
    }
  }

  method StampAll(cookies: seq<StoredCookie>, order: seq<nat>, access: nat) returns (touched: seq<StoredCookie>)
    requires InBounds(cookies, order)
    ensures touched == Stamped(cookies, order, access)
  {
    touched := cookies;
    for k := 0 to |order|
      invariant touched == Stamped(cookies, order[..k], access)
    {
      assert order[..k + 1][..k] == order[..k];
      var index := order[k];
      touched := touched[index := touched[index].(lastAccess := access)];
    }
    assert order[..|order|] == order;
  }

  class CookieStore {
    const lib: Library
    var cookies: seq<StoredCookie>
    var nextCreation: nat
    var nextAccess: nat

    ghost function View(): Jar
      reads this
    {
      Jar(cookies, nextCreation, nextAccess)
    }

    constructor (lib: Library)
      ensures View() == EMPTY && this.lib == lib
    {
      this.lib := lib;
      cookies, nextCreation, nextAccess := [], 0, 0;
    }

    method PurgeExpired(now: Time)
      modifies this
      ensures View() == AfterPurge(old(View()), now)
    {
      var kept := [];
      for i := 0 to |cookies|
        invariant kept == Unexpired(cookies[..i], now) && View() == old(View())
      {
        assert cookies[..i + 1][..i] == cookies[..i];
        if !IsExpired(cookies[i], now) {
          kept := kept + [cookies[i]];
        }
      }
      assert cookies[..|cookies|] == cookies;
      cookies := kept;
    }

    method EnforceCapacity(domain: string)
      modifies `cookies
      ensures cookies == TrimGlobal(TrimDomain(old(cookies), domain))
    {
      while CountDomain(cookies, domain) > MAX_COOKIES_PER_DOMAIN
        invariant TrimDomain(cookies, domain) == TrimDomain(old(cookies), domain)
        decreases |cookies|
      {
        cookies := RemoveAt(cookies, DomainVictim(cookies, domain));
      }
      while |cookies| > MAX_COOKIES
        invariant TrimGlobal(cookies) == TrimGlobal(TrimDomain(old(cookies), domain))
        decreases |cookies|
      {
        cookies := RemoveAt(cookies, GlobalVictim(cookies));
      }
    }

    method Store(value: string, originHost: string, requestPath: string, originSecure: bool, now: Time)
      modifies this
      ensures var parsed := Parse(lib, value, originHost, requestPath, originSecure, now);
              View() == if parsed.None? then old(View())
                        else AfterStore(lib, old(View()), parsed.value, originSecure, now)
    {
      var parsed := ParseSetCookie(lib, value, originHost, requestPath, originSecure, now);
      if parsed.None? {
        return;
      }
      var candidate := parsed.value;
      if !originSecure && Overlays(lib, cookies, candidate) {
        return;
      }
      var existing := Find(cookies, candidate);
      if IsExpired(candidate, now) {
        if existing.Some? {
          cookies := RemoveAt(cookies, existing.value);
        }
        return;
      }
      candidate := candidate.(lastAccess := nextAccess);
      nextAccess := SatInc(nextAccess);
      if existing.Some? {
        candidate := candidate.(creation := cookies[existing.value].creation);
        cookies := cookies[existing.value := candidate];
        return;
      }
      candidate := candidate.(creation := nextCreation);
      nextCreation := SatInc(nextCreation);
      cookies := cookies + [candidate];
      EnforceCapacity(candidate.domain);
    }

    method RequestHeader(host: string, path: string, secure: bool) returns (r: Option<string>)
      requires PairsSound(cookies)
      modifies this
      ensures View() == AfterHeader(lib, old(View()), host, path, secure)
      ensures var order := Order(lib, old(cookies), host, path, secure);
              && r == (if order == [] then None else Some(JoinPairs(old(cookies), order)))
              && (r.Some? ==> ReadsAs(r.value, old(cookies), order))
    {
      var order := Order(lib, cookies, host, path, secure);
      if order == [] {
        return None;
      }
      var access := nextAccess;
      nextAccess := SatInc(nextAccess);
      var header := WriteHeader(cookies, order);
      cookies := StampAll(cookies, order, access);
      StampedIsTouched(lib, old(cookies), host, path, secure, access);
      return Some(header);
    }
  }

  const EMPTY: Jar := Jar([], 0, 0)

  // ----- What every operation keeps -----

  /** Identities differ, and later positions were created later; strictly so while the
      creation counter is not saturated. */
  predicate Pairwise(cookies: seq<StoredCookie>, strict: bool) {
    forall i, j :: 0 <= i < j < |cookies| ==> PairOk(cookies[i], cookies[j], strict)
  }

  predicate PairOk(a: StoredCookie, b: StoredCookie, strict: bool) {
    && !SameIdentity(a, b)
    && a.creation <= b.creation
    && (strict ==> a.creation < b.creation)
  }

  predicate EachOk(c: StoredCookie, jar: Jar) {
    && PairSound(c)
    && c.lastAccess <= jar.nextAccess
    && (jar.nextAccess < U64_MAX ==> c.lastAccess < jar.nextAccess)
    && c.creation <= jar.nextCreation
    && (jar.nextCreation < U64_MAX ==> c.creation < jar.nextCreation)
  }

  predicate AllOk(jar: Jar) { forall i :: 0 <= i < |jar.cookies| ==> EachOk(jar.cookies[i], jar) }

  ghost predicate WithinCaps(cookies: seq<StoredCookie>) {
    |cookies| <= MAX_COOKIES && forall domain :: CountDomain(cookies, domain) <= MAX_COOKIES_PER_DOMAIN
  }

  ghost predicate Good(jar: Jar) {
    Pairwise(jar.cookies, jar.nextCreation < U64_MAX) && AllOk(jar) && WithinCaps(jar.cookies)
  }

  lemma {:induction false} CountConcat(a: seq<StoredCookie>, b: seq<StoredCookie>, domain: string)
    ensures CountDomain(a + b, domain) == CountDomain(a, domain) + CountDomain(b, domain)
  {
    if b == [] {
      assert a + b == a;
    } else {
      assert (a + b)[..|a + b| - 1] == a + b[..|b| - 1];
      CountConcat(a, b[..|b| - 1], domain);
    }
  }

  lemma CountSingle(c: StoredCookie, domain: string)
    ensures CountDomain([c], domain) == if c.domain == domain then 1 else 0
  {
    assert [c][..0] == [];
  }

  lemma CountRemove(cookies: seq<StoredCookie>, i: nat, domain: string)
    requires i < |cookies|
    ensures CountDomain(RemoveAt(cookies, i), domain) + (if cookies[i].domain == domain then 1 else 0)
            == CountDomain(cookies, domain)
  {
    assert cookies == cookies[..i] + [cookies[i]] + cookies[i + 1..];
    CountConcat(cookies[..i] + [cookies[i]], cookies[i + 1..], domain);
    CountConcat(cookies[..i], [cookies[i]], domain);
    CountConcat(cookies[..i], cookies[i + 1..], domain);
    CountSingle(cookies[i], domain);
  }

  lemma CountReplace(cookies: seq<StoredCookie>, i: nat, c: StoredCookie, domain: string)
    requires i < |cookies| && c.domain == cookies[i].domain
    ensures CountDomain(cookies[i := c], domain) == CountDomain(cookies, domain)
  {
    CountRemove(cookies, i, domain);
    CountRemove(cookies[i := c], i, domain);
    assert RemoveAt(cookies[i := c], i) == RemoveAt(cookies, i);
  }

  lemma RemoveKeepsPairs(cookies: seq<StoredCookie>, i: nat, strict: bool)
    requires i < |cookies| && Pairwise(cookies, strict)
    ensures Pairwise(RemoveAt(cookies, i), strict)
  {
    var r := RemoveAt(cookies, i);
    forall a, b | 0 <= a < b < |r| ensures PairOk(r[a], r[b], strict) {
      var a', b' := if a < i then a else a + 1, if b < i then b else b + 1;
      assert PairOk(cookies[a'], cookies[b'], strict);
    }
  }

  lemma RemoveKeeps(jar: Jar, i: nat)
    requires i < |jar.cookies| && Good(jar)
    ensures Good(jar.(cookies := RemoveAt(jar.cookies, i)))
  {
    RemoveKeepsPairs(jar.cookies, i, jar.nextCreation < U64_MAX);
    forall domain ensures CountDomain(RemoveAt(jar.cookies, i), domain) <= MAX_COOKIES_PER_DOMAIN {
      CountRemove(jar.cookies, i, domain);
    }
  }

  lemma {:induction false} PurgeContents(cookies: seq<StoredCookie>, now: Time)
    ensures |Unexpired(cookies, now)| <= |cookies|
    ensures forall c :: c in Unexpired(cookies, now) <==> c in cookies && !IsExpired(c, now)
  {
    if cookies == [] {
    } else {
      var n := |cookies| - 1;
      PurgeContents(cookies[..n], now);
      assert forall c :: c in cookies <==> c in cookies[..n] || c == cookies[n] by {
        assert cookies == cookies[..n] + [cookies[n]];
      }
    }
  }

  lemma SnocKeepsPairs(kept: seq<StoredCookie>, c: StoredCookie, strict: bool)
    requires Pairwise(kept, strict) && forall a :: 0 <= a < |kept| ==> PairOk(kept[a], c, strict)
    ensures Pairwise(kept + [c], strict)
  {
  }

  lemma FrontKeepsPairs(cookies: seq<StoredCookie>, n: nat, strict: bool)
    requires Pairwise(cookies, strict) && n <= |cookies|
    ensures Pairwise(cookies[..n], strict)
  {
  }

  lemma {:induction false} PurgeKeepsPairs(cookies: seq<StoredCookie>, now: Time, strict: bool)
    requires Pairwise(cookies, strict)
    ensures Pairwise(Unexpired(cookies, now), strict)
  {
    if cookies == [] {
    } else {
      var n := |cookies| - 1;
      var c := cookies[n];
      FrontKeepsPairs(cookies, n, strict);
      PurgeKeepsPairs(cookies[..n], now, strict);
      PurgeContents(cookies[..n], now);
      var kept := Unexpired(cookies[..n], now);
      forall a | 0 <= a < |kept| ensures PairOk(kept[a], c, strict) {
        assert kept[a] in cookies[..n];
        var i :| 0 <= i < n && cookies[i] == kept[a];
        assert PairOk(cookies[i], cookies[n], strict);
      }
      SnocKeepsPairs(kept, c, strict);
    }
  }

  lemma {:induction false} PurgeCounts(cookies: seq<StoredCookie>, now: Time, domain: string)
    ensures CountDomain(Unexpired(cookies, now), domain) <= CountDomain(cookies, domain)
  {
    if cookies == [] {
    } else {
      var n := |cookies| - 1;
      PurgeCounts(cookies[..n], now, domain);
      CountConcat(Unexpired(cookies[..n], now), [cookies[n]], domain);
      CountSingle(cookies[n], domain);
      assert Unexpired(cookies[..n], now) + [] == Unexpired(cookies[..n], now);
    }
  }

  lemma PurgeKeeps(jar: Jar, now: Time)
    requires Good(jar)
    ensures Good(AfterPurge(jar, now))
  {
    PurgeContents(jar.cookies, now);
    PurgeKeepsPairs(jar.cookies, now, jar.nextCreation < U64_MAX);
    forall domain ensures CountDomain(Unexpired(jar.cookies, now), domain) <= MAX_COOKIES_PER_DOMAIN {
      PurgeCounts(jar.cookies, now, domain);
    }
    var kept := Unexpired(jar.cookies, now);
    forall i | 0 <= i < |kept| ensures EachOk(kept[i], jar) {
      assert kept[i] in jar.cookies;
      var k :| 0 <= k < |jar.cookies| && jar.cookies[k] == kept[i];
      assert EachOk(jar.cookies[k], jar);
    }
  }

  lemma {:induction false} TouchedCounts(lib: Library, cookies: seq<StoredCookie>, host: string, path: string,
                                         secure: bool, access: nat, domain: string)
    ensures CountDomain(Touched(lib, cookies, host, path, secure, access), domain) == CountDomain(cookies, domain)
  {
    if cookies == [] {
    } else {
      var n := |cookies| - 1;
      TouchedCounts(lib, cookies[..n], host, path, secure, access, domain);
      assert Touched(lib, cookies, host, path, secure, access)[..n]
             == Touched(lib, cookies[..n], host, path, secure, access);
    }
  }

  lemma HeaderKeeps(lib: Library, jar: Jar, host: string, path: string, secure: bool)
    requires Good(jar)
    ensures Good(AfterHeader(lib, jar, host, path, secure))
  {
    var t := AfterHeader(lib, jar, host, path, secure);
    forall domain ensures CountDomain(t.cookies, domain) <= MAX_COOKIES_PER_DOMAIN {
      TouchedCounts(lib, jar.cookies, host, path, secure, jar.nextAccess, domain);
    }
    forall i, j | 0 <= i < j < |t.cookies| ensures PairOk(t.cookies[i], t.cookies[j], jar.nextCreation < U64_MAX) {
      assert PairOk(jar.cookies[i], jar.cookies[j], jar.nextCreation < U64_MAX);
    }
    forall i | 0 <= i < |t.cookies| ensures EachOk(t.cookies[i], t) {
      assert EachOk(jar.cookies[i], jar);
    }
  }

  // ----- Insertion -----

  /** The store with the new cookie, before the caps. */
  function Grown(jar: Jar, candidate: StoredCookie): seq<StoredCookie> { jar.cookies + [Fresh(jar, candidate)] }

  /** Which position of the grown store, if any, the caps evict. */
  function Evicted(jar: Jar, candidate: StoredCookie): (r: Option<nat>)
    ensures r.Some? ==> r.value < |Grown(jar, candidate)|
  {
    var all := Grown(jar, candidate);
    if CountDomain(all, candidate.domain) > MAX_COOKIES_PER_DOMAIN then Some(DomainVictim(all, candidate.domain))
    else if |all| > MAX_COOKIES then Some(GlobalVictim(all))
    else None
  }

  function AfterCaps(jar: Jar, candidate: StoredCookie): seq<StoredCookie> {
    var v := Evicted(jar, candidate);
    if v.Some? then RemoveAt(Grown(jar, candidate), v.value) else Grown(jar, candidate)
  }

  lemma GrownCounts(jar: Jar, candidate: StoredCookie, domain: string)
    ensures CountDomain(Grown(jar, candidate), domain)
            == CountDomain(jar.cookies, domain) + if candidate.domain == domain then 1 else 0
  {
    CountConcat(jar.cookies, [Fresh(jar, candidate)], domain);
    CountSingle(Fresh(jar, candidate), domain);
  }

  /** Both eviction loops together run at most once. */
  lemma CapsEvictAtMostOne(jar: Jar, candidate: StoredCookie)
    requires WithinCaps(jar.cookies)
    ensures TrimGlobal(TrimDomain(Grown(jar, candidate), candidate.domain)) == AfterCaps(jar, candidate)
    ensures WithinCaps(AfterCaps(jar, candidate))
  {
    var all := Grown(jar, candidate);
    var v := Evicted(jar, candidate);
    GrownCounts(jar, candidate, candidate.domain);
    if v.Some? {
      CountRemove(all, v.value, candidate.domain);
    }
    forall domain ensures CountDomain(AfterCaps(jar, candidate), domain) <= MAX_COOKIES_PER_DOMAIN {
      GrownCounts(jar, candidate, domain);
      if v.Some? {
        CountRemove(all, v.value, domain);
      }
    }
  }

  lemma GrownKeeps(jar: Jar, candidate: StoredCookie)
    requires Good(jar) && PairSound(candidate) && Find(jar.cookies, candidate).None?
    requires jar.nextCreation <= U64_MAX && jar.nextAccess <= U64_MAX
    ensures var t := Jar(Grown(jar, candidate), SatInc(jar.nextCreation), SatInc(jar.nextAccess));
            Pairwise(t.cookies, t.nextCreation < U64_MAX) && AllOk(t)
  {
    var t := Jar(Grown(jar, candidate), SatInc(jar.nextCreation), SatInc(jar.nextAccess));
    forall i | 0 <= i < |t.cookies| ensures EachOk(t.cookies[i], t) {
      assert i < |jar.cookies| ==> EachOk(jar.cookies[i], jar);
    }
    forall i, j | 0 <= i < j < |t.cookies| ensures PairOk(t.cookies[i], t.cookies[j], t.nextCreation < U64_MAX) {
      assert EachOk(jar.cookies[i], jar);
      assert j < |jar.cookies| ==> PairOk(jar.cookies[i], jar.cookies[j], jar.nextCreation < U64_MAX);
    }
  }

  lemma RemoveKeepsEach(cookies: seq<StoredCookie>, i: nat, jar: Jar)
    requires i < |cookies| && forall k :: 0 <= k < |cookies| ==> EachOk(cookies[k], jar)
    ensures forall k :: 0 <= k < |RemoveAt(cookies, i)| ==> EachOk(RemoveAt(cookies, i)[k], jar)
  {
    forall k | 0 <= k < |RemoveAt(cookies, i)| ensures EachOk(RemoveAt(cookies, i)[k], jar) {
      assert EachOk(cookies[if k < i then k else k + 1], jar);
    }
  }

  lemma CapsKeep(jar: Jar, candidate: StoredCookie)
    requires Good(jar) && PairSound(candidate) && Find(jar.cookies, candidate).None?
    requires jar.nextCreation <= U64_MAX && jar.nextAccess <= U64_MAX
    ensures var t := Jar(AfterCaps(jar, candidate), SatInc(jar.nextCreation), SatInc(jar.nextAccess));
            Pairwise(t.cookies, t.nextCreation < U64_MAX) && AllOk(t)
  {
    var v := Evicted(jar, candidate);
    var all := Grown(jar, candidate);
    GrownKeeps(jar, candidate);
    if v.Some? {
      RemoveKeepsPairs(all, v.value, SatInc(jar.nextCreation) < U64_MAX);
      RemoveKeepsEach(all, v.value, Jar(all, SatInc(jar.nextCreation), SatInc(jar.nextAccess)));
    }
  }

  lemma InsertKeeps(jar: Jar, candidate: StoredCookie)
    requires Good(jar) && PairSound(candidate) && Find(jar.cookies, candidate).None?
    requires jar.nextCreation <= U64_MAX && jar.nextAccess <= U64_MAX
    ensures Good(Jar(AfterCaps(jar, candidate), SatInc(jar.nextCreation), SatInc(jar.nextAccess)))
  {
    CapsKeep(jar, candidate);
    CapsEvictAtMostOne(jar, candidate);
  }

  lemma ReplaceKeeps(jar: Jar, i: nat, c: StoredCookie)
    requires Good(jar) && i < |jar.cookies| && SameIdentity(jar.cookies[i], c) && PairSound(c)
    requires c.creation == jar.cookies[i].creation && c.lastAccess == jar.nextAccess
    ensures Good(jar.(cookies := jar.cookies[i := c], nextAccess := SatInc(jar.nextAccess)))
  {
    var t := jar.(cookies := jar.cookies[i := c], nextAccess := SatInc(jar.nextAccess));
    forall domain ensures CountDomain(t.cookies, domain) <= MAX_COOKIES_PER_DOMAIN {
      CountReplace(jar.cookies, i, c, domain);
    }
    forall a, b | 0 <= a < b < |t.cookies| ensures PairOk(t.cookies[a], t.cookies[b], t.nextCreation < U64_MAX) {
      assert PairOk(jar.cookies[a], jar.cookies[b], jar.nextCreation < U64_MAX);
    }
    forall a | 0 <= a < |t.cookies| ensures EachOk(t.cookies[a], t) {
      assert EachOk(jar.cookies[a], jar);
    }
  }

  predicate CountersFit(jar: Jar) { jar.nextCreation <= U64_MAX && jar.nextAccess <= U64_MAX }

  lemma StoreKeeps(lib: Library, jar: Jar, candidate: StoredCookie, originSecure: bool, now: Time)
    requires Good(jar) && CountersFit(jar) && PairSound(candidate)
    ensures Good(AfterStore(lib, jar, candidate, originSecure, now))
    ensures CountersFit(AfterStore(lib, jar, candidate, originSecure, now))
  {
    var existing := Find(jar.cookies, candidate);
    if existing.Some? {
      var i := existing.value;
      RemoveKeeps(jar, i);
      ReplaceKeeps(jar, i, candidate.(lastAccess := jar.nextAccess, creation := jar.cookies[i].creation));
    } else {
      CapsEvictAtMostOne(jar, candidate);
      InsertKeeps(jar, candidate);
    }
  }

  // ----- Runs -----

  /** The operations of the jar; a retrieval and a response purge first. */
  datatype Op =
    | StoreOp(value: string, host: string, path: string, secure: bool, now: Time)
    | HeaderOp(host: string, path: string, secure: bool, now: Time)
    | PurgeOp(now: Time)

  function AfterOp(lib: Library, jar: Jar, op: Op): Jar {
    match op
    case StoreOp(value, host, path, secure, now) =>
      var parsed := Parse(lib, value, host, path, secure, now);
      if parsed.None? then jar else AfterStore(lib, jar, parsed.value, secure, now)
    case HeaderOp(host, path, secure, now) => AfterHeader(lib, AfterPurge(jar, now), host, path, secure)
    case PurgeOp(now) => AfterPurge(jar, now)
  }

  function AfterAll(lib: Library, ops: seq<Op>): Jar {
    if ops == [] then EMPTY else AfterOp(lib, AfterAll(lib, ops[..|ops| - 1]), ops[|ops| - 1])
  }

  /** From the empty store, after any operations: identities are unique, no domain holds more
      than 50 cookies, the store no more than 3000, and positions follow creation. */
  lemma {:induction false} StoreStaysGood(lib: Library, ops: seq<Op>)
    ensures Good(AfterAll(lib, ops)) && CountersFit(AfterAll(lib, ops))
  {
    if ops == [] {
    } else {
      var jar := AfterAll(lib, ops[..|ops| - 1]);
      StoreStaysGood(lib, ops[..|ops| - 1]);
      match ops[|ops| - 1]
      case StoreOp(value, host, path, secure, now) =>
        var parsed := Parse(lib, value, host, path, secure, now);
        if parsed.Some? {
          StoreKeeps(lib, jar, parsed.value, secure, now);
        }
      case HeaderOp(host, path, secure, now) =>
        PurgeKeeps(jar, now);
        HeaderKeeps(lib, AfterPurge(jar, now), host, path, secure);
      case PurgeOp(now) => PurgeKeeps(jar, now);
    }
  }

  // ----- What a store removes -----

  /** The newest cookie is evicted only when it is the only eligible one. */
  lemma NewestIsLastChoice(jar: Jar, candidate: StoredCookie, pool: Pool)
    requires AllOk(jar)
    ensures var all := Grown(jar, candidate); var n := |jar.cookies|;
            (Oldest(all, pool, |all|) == Some(n)) <==>
              (Eligible(pool, Fresh(jar, candidate)) && forall j :: 0 <= j < n ==> !Eligible(pool, jar.cookies[j]))
  {
    var all := Grown(jar, candidate);
    var n := |jar.cookies|;
    assert all[n] == Fresh(jar, candidate);
    assert forall j :: 0 <= j < n ==> all[j] == jar.cookies[j];
    var best := Oldest(all, pool, n);
    if best.Some? {
      assert EachOk(jar.cookies[best.value], jar);
      assert !Older(all[n], all[best.value]) && Eligible(pool, jar.cookies[best.value]);
    } else {
      forall j | 0 <= j < n ensures !Eligible(pool, jar.cookies[j]) {
        assert !Eligible(pool, all[j]);
      }
    }
  }

  lemma NewestEvictedIff(jar: Jar, candidate: StoredCookie)
    requires Good(jar)
    ensures Evicted(jar, candidate) != Some(|jar.cookies|) <==>
            !(!candidate.secure && CountDomain(jar.cookies, candidate.domain) == MAX_COOKIES_PER_DOMAIN
              && !HasNonSecure(jar.cookies, candidate.domain))
  {
    var all := Grown(jar, candidate);
    var n := |jar.cookies|;
    var d := candidate.domain;
    GrownCounts(jar, candidate, d);
    assert all[n] == Fresh(jar, candidate);
    assert HasNonSecure(all, d) <==> (!candidate.secure || HasNonSecure(jar.cookies, d)) by {
      if HasNonSecure(jar.cookies, d) {
        var i :| 0 <= i < n && jar.cookies[i].domain == d && !jar.cookies[i].secure;
        assert all[i] == jar.cookies[i];
      }
    }
    if CountDomain(all, d) > MAX_COOKIES_PER_DOMAIN {
      NewestIsLastChoice(jar, candidate, DomainPool(all, d));
      assert exists i :: 0 <= i < n && jar.cookies[i].domain == d;
    } else if |all| > MAX_COOKIES {
      NewestIsLastChoice(jar, candidate, Everyone);
      assert Eligible(Everyone, jar.cookies[0]);
    }
  }

  lemma OverlayCatchesSameIdentity(lib: Library, cookies: seq<StoredCookie>, candidate: StoredCookie)
    requires Find(cookies, candidate).Some? && cookies[Find(cookies, candidate).value].secure
    ensures Overlays(lib, cookies, candidate)
  {
    var c := cookies[Find(cookies, candidate).value];
    assert DomainMatches(lib, candidate.domain, c.domain) && PathMatches(candidate.path, c.path);
  }

  /** Identities are unique, so a removed cookie is gone. */
  lemma RemovedIsGone(cookies: seq<StoredCookie>, v: nat, i: nat, strict: bool)
    requires v < |cookies| && i < |cookies| && Pairwise(cookies, strict)
    ensures cookies[i] in RemoveAt(cookies, v) <==> v != i
  {
    var r := RemoveAt(cookies, v);
    if v != i {
      assert r[if i < v then i else i - 1] == cookies[i];
    } else {
      forall k | 0 <= k < |r| ensures r[k] != cookies[i] {
        assert k < i ==> PairOk(cookies[k], cookies[i], strict);
        assert k >= i ==> PairOk(cookies[i], cookies[k + 1], strict);
      }
    }
  }

  lemma SurvivesCapsIff(jar: Jar, candidate: StoredCookie, i: nat)
    requires Good(jar) && CountersFit(jar) && PairSound(candidate) && Find(jar.cookies, candidate).None?
    requires i <= |jar.cookies|
    ensures Grown(jar, candidate)[i] in TrimGlobal(TrimDomain(Grown(jar, candidate), candidate.domain))
            <==> Evicted(jar, candidate) != Some(i)
  {
    CapsEvictAtMostOne(jar, candidate);
    GrownKeeps(jar, candidate);
    var v := Evicted(jar, candidate);
    if v.Some? {
      RemovedIsGone(Grown(jar, candidate), v.value, i, SatInc(jar.nextCreation) < U64_MAX);
    }
  }

  /** Whether a store inserts a cookie under a new identity. */
  predicate Inserts(lib: Library, jar: Jar, candidate: StoredCookie, originSecure: bool, now: Time) {
    && !(!originSecure && Overlays(lib, jar.cookies, candidate))
    && !IsExpired(candidate, now)
    && Find(jar.cookies, candidate).None?
  }

  lemma FreshSurvivesIff(lib: Library, jar: Jar, candidate: StoredCookie, originSecure: bool, now: Time)
    requires Good(jar) && CountersFit(jar) && PairSound(candidate)
    requires Inserts(lib, jar, candidate, originSecure, now)
    ensures (Fresh(jar, candidate) in AfterStore(lib, jar, candidate, originSecure, now).cookies) <==>
            (candidate.secure || HasNonSecure(jar.cookies, candidate.domain)
             || CountDomain(jar.cookies, candidate.domain) < MAX_COOKIES_PER_DOMAIN)
  {
    NewestEvictedIff(jar, candidate);
    SurvivesCapsIff(jar, candidate, |jar.cookies|);
  }

  /** The cookie at `i` was used longest ago: none is older, and the ones before it are newer. */
  predicate LeastRecent(cookies: seq<StoredCookie>, i: nat)
    requires i < |cookies|
  {
    forall j :: 0 <= j < |cookies| ==> !Older(cookies[j], cookies[i]) && (j < i ==> Older(cookies[i], cookies[j]))
  }

  lemma GlobalVictimIff(jar: Jar, candidate: StoredCookie, i: nat)
    requires AllOk(jar) && i < |jar.cookies|
    ensures GlobalVictim(Grown(jar, candidate)) == i <==> LeastRecent(jar.cookies, i)
  {
    var all := Grown(jar, candidate);
    var n := |jar.cookies|;
    var v := GlobalVictim(all);
    NewestIsLastChoice(jar, candidate, Everyone);
    assert Eligible(Everyone, jar.cookies[i]) && Eligible(Everyone, all[i]);
    assert v < n;
    forall j | 0 <= j < n
      ensures all[j] == jar.cookies[j] && !Older(all[j], all[v]) && (j < v ==> Older(all[v], all[j]))
    {
      assert Eligible(Everyone, all[j]);
    }
    assert LeastRecent(jar.cookies, v);
  }

  /** The one way a non-secure store can cost the store the Secure cookie at `i`. */
  predicate LosesToGlobalCap(jar: Jar, candidate: StoredCookie, i: nat)
    requires i < |jar.cookies|
  {
    && |jar.cookies| == MAX_COOKIES
    && CountDomain(jar.cookies, candidate.domain) < MAX_COOKIES_PER_DOMAIN
    && LeastRecent(jar.cookies, i)
  }

  lemma SecureLostIff(lib: Library, jar: Jar, candidate: StoredCookie, now: Time, i: nat)
    requires Good(jar) && CountersFit(jar) && PairSound(candidate) && !candidate.secure
    requires i < |jar.cookies| && jar.cookies[i].secure
    ensures (jar.cookies[i] !in AfterStore(lib, jar, candidate, false, now).cookies) <==>
            (Inserts(lib, jar, candidate, false, now) && LosesToGlobalCap(jar, candidate, i))
  {
    if !Overlays(lib, jar.cookies, candidate) {
      var existing := Find(jar.cookies, candidate);
      if existing.Some? {
        if jar.cookies[existing.value].secure {
          OverlayCatchesSameIdentity(lib, jar.cookies, candidate);
        }
        RemovedIsGone(jar.cookies, existing.value, i, jar.nextCreation < U64_MAX);
        var c := candidate.(lastAccess := jar.nextAccess, creation := jar.cookies[existing.value].creation);
        assert jar.cookies[existing.value := c][i] == jar.cookies[i];
      } else if !IsExpired(candidate, now) {
        InsertSparesSecure(jar, candidate, i);
      }
    }
  }

  lemma InsertSparesSecure(jar: Jar, candidate: StoredCookie, i: nat)
    requires Good(jar) && CountersFit(jar) && PairSound(candidate) && !candidate.secure
    requires Find(jar.cookies, candidate).None? && i < |jar.cookies| && jar.cookies[i].secure
    ensures (jar.cookies[i] !in TrimGlobal(TrimDomain(Grown(jar, candidate), candidate.domain)))
            <==> LosesToGlobalCap(jar, candidate, i)
  {
    SurvivesCapsIff(jar, candidate, i);
    var all := Grown(jar, candidate);
    GrownCounts(jar, candidate, candidate.domain);
    assert all[|jar.cookies|] == Fresh(jar, candidate);
    assert all[i] == jar.cookies[i];
    assert HasNonSecure(all, candidate.domain);
    GlobalVictimIff(jar, candidate, i);
  }

  /** In every reachable store, inserting a parsed cookie evicts at most one cookie: the store
      becomes the old one with the new cookie at its end, less the one that the caps name. */
  lemma StoreEvictsAtMostOne(lib: Library, ops: seq<Op>, value: string, host: string, path: string,
                             originSecure: bool, now: Time)
    requires Parse(lib, value, host, path, originSecure, now).Some?
    requires Inserts(lib, AfterAll(lib, ops), Parse(lib, value, host, path, originSecure, now).value, originSecure, now)
    ensures var before := AfterAll(lib, ops);
            var candidate := Parse(lib, value, host, path, originSecure, now).value;
            var after := AfterOp(lib, before, StoreOp(value, host, path, originSecure, now)).cookies;
            var grown := before.cookies + [Fresh(before, candidate)];
            after == match Evicted(before, candidate)
                     case None => grown
                     case Some(v) => grown[..v] + grown[v + 1..]
  {
    StoreStaysGood(lib, ops);
    CapsEvictAtMostOne(AfterAll(lib, ops), Parse(lib, value, host, path, originSecure, now).value);
  }

  /** In every reachable store, a newly stored cookie survives its own insertion unless it is
      non-secure and its domain already holds 50 cookies, all of them Secure. A Secure one
      always survives. */
  lemma NewCookieSurvivesIff(lib: Library, ops: seq<Op>, value: string, host: string, path: string,
                             originSecure: bool, now: Time)
    requires Parse(lib, value, host, path, originSecure, now).Some?
    requires Inserts(lib, AfterAll(lib, ops), Parse(lib, value, host, path, originSecure, now).value, originSecure, now)
    ensures var before := AfterAll(lib, ops);
            var candidate := Parse(lib, value, host, path, originSecure, now).value;
            var after := AfterOp(lib, before, StoreOp(value, host, path, originSecure, now)).cookies;
            (Fresh(before, candidate) in after) <==>
            (candidate.secure || HasNonSecure(before.cookies, candidate.domain)
             || CountDomain(before.cookies, candidate.domain) < MAX_COOKIES_PER_DOMAIN)
  {
    StoreStaysGood(lib, ops);
    var candidate := Parse(lib, value, host, path, originSecure, now).value;
    FreshSurvivesIff(lib, AfterAll(lib, ops), candidate, originSecure, now);
  }

  /** In every reachable store, a store from a non-secure origin removes a Secure cookie exactly
      when it inserts, into a domain below its own cap, a cookie that pushes a full store over
      the global cap, and the Secure cookie is the least recently used of all. */
  lemma InsecureStoreSparesSecure(lib: Library, ops: seq<Op>, value: string, host: string, path: string,
                                  now: Time, i: nat)
    requires i < |AfterAll(lib, ops).cookies| && AfterAll(lib, ops).cookies[i].secure
    ensures var before := AfterAll(lib, ops);
            var parsed := Parse(lib, value, host, path, false, now);
            var after := AfterOp(lib, before, StoreOp(value, host, path, false, now)).cookies;
            (before.cookies[i] !in after) <==>
            (&& parsed.Some?
             && Inserts(lib, before, parsed.value, false, now)
             && LosesToGlobalCap(before, parsed.value, i))
  {
    StoreStaysGood(lib, ops);
    var parsed := Parse(lib, value, host, path, false, now);
    if parsed.Some? {
      SecureLostIff(lib, AfterAll(lib, ops), parsed.value, now, i);
    }
  }

  // ----- What a retrieval emits -----

  /** Longer paths first; among equal lengths, by position, which is by creation. */
  predicate Precedes(cookies: seq<StoredCookie>, a: nat, b: nat)
    requires a < |cookies| && b < |cookies|
  {
    var m, n := Utf8Octets(cookies[a].path), Utf8Octets(cookies[b].path);
    m > n || (m == n && a < b)
  }

  predicate Ranked(cookies: seq<StoredCookie>, order: seq<nat>, k: nat, l: nat)
    requires InBounds(cookies, order) && k < |order| && l < |order|
  {
    Precedes(cookies, order[k], order[l])
  }

  predicate Sorted(cookies: seq<StoredCookie>, order: seq<nat>) {
    && InBounds(cookies, order)
    && forall k, l :: 0 <= k < l < |order| ==> Ranked(cookies, order, k, l)
  }

  /** The order without positions, which is strict while creation stamps are distinct. */
  predicate ByPathThenCreation(cookies: seq<StoredCookie>, order: seq<nat>)
    requires InBounds(cookies, order)
  {
    forall k, l :: 0 <= k < l < |order| ==> Before(cookies, order[k], order[l])
  }

  predicate CreatedBefore(cookies: seq<StoredCookie>, i: nat, j: nat)
    requires i < |cookies| && j < |cookies|
  {
    cookies[i].creation <= cookies[j].creation
  }

  predicate CreationOrdered(cookies: seq<StoredCookie>) {
    forall i, j :: 0 <= i < j < |cookies| ==> CreatedBefore(cookies, i, j)
  }

  predicate Below(order: seq<nat>, n: nat) { forall k :: 0 <= k < |order| ==> order[k] < n }

  lemma SortedCons(cookies: seq<StoredCookie>, first: nat, rest: seq<nat>)
    requires first < |cookies| && Sorted(cookies, rest)
    requires forall k :: 0 <= k < |rest| ==> Precedes(cookies, first, rest[k])
    ensures Sorted(cookies, [first] + rest)
  {
    var order := [first] + rest;
    forall k, l | 0 <= k < l < |order| ensures Ranked(cookies, order, k, l) {
      assert order[l] == rest[l - 1];
      assert k > 0 ==> order[k] == rest[k - 1] && Ranked(cookies, rest, k - 1, l - 1);
    }
  }

  lemma SortedTail(cookies: seq<StoredCookie>, order: seq<nat>)
    requires Sorted(cookies, order) && order != []
    ensures Sorted(cookies, order[1..]) && multiset(order[1..]) == multiset(order) - multiset{order[0]}
  {
    assert order == [order[0]] + order[1..];
    forall k, l | 0 <= k < l < |order| - 1 ensures Ranked(cookies, order[1..], k, l) {
      assert Ranked(cookies, order, k + 1, l + 1);
    }
  }

  lemma InsertedIs(cookies: seq<StoredCookie>, order: seq<nat>, i: nat, k: nat)
    requires i < |cookies| && InBounds(cookies, order) && k < |Insert(cookies, order, i)|
    ensures Insert(cookies, order, i)[k] == i || Insert(cookies, order, i)[k] in order
  {
    InsertAdds(cookies, order, i);
    assert Insert(cookies, order, i)[k] in multiset(Insert(cookies, order, i));
  }

  /** The first of a sorted order comes before every other position in it. */
  lemma FirstRanks(cookies: seq<StoredCookie>, order: seq<nat>, i: nat)
    requires Sorted(cookies, order) && order != []
    ensures i in order[1..] ==> Precedes(cookies, order[0], i)
  {
    if i in order[1..] {
      var k :| 0 < k < |order| && order[k] == i;
      assert Ranked(cookies, order, 0, k);
    }
  }

  lemma {:induction false} InsertSorts(cookies: seq<StoredCookie>, order: seq<nat>, i: nat)
    requires i < |cookies| && Sorted(cookies, order) && CreationOrdered(cookies) && Below(order, i)
    ensures Sorted(cookies, Insert(cookies, order, i))
  {
    if order == [] {
    } else {
      assert CreatedBefore(cookies, order[0], i);
      if Before(cookies, i, order[0]) {
        forall k | 0 <= k < |order| ensures Precedes(cookies, i, order[k]) {
          FirstRanks(cookies, order, order[k]);
        }
        SortedCons(cookies, i, order);
      } else {
        var rest := Insert(cookies, order[1..], i);
        SortedTail(cookies, order);
        InsertSorts(cookies, order[1..], i);
        forall k | 0 <= k < |rest| ensures Precedes(cookies, order[0], rest[k]) {
          InsertedIs(cookies, order[1..], i, k);
          FirstRanks(cookies, order, rest[k]);
        }
        SortedCons(cookies, order[0], rest);
      }
    }
  }

  lemma PickedBelow(cookies: seq<StoredCookie>, pick: StoredCookie -> bool, n: nat)
    requires n <= |cookies|
    ensures Below(SortPicked(cookies, pick, n), n)
  {
    var order := SortPicked(cookies, pick, n);
    forall k | 0 <= k < |order| ensures order[k] < n {
      ListsPickedOnce(cookies, pick, n, order[k]);
      assert order[k] in multiset(order);
    }
  }

  lemma {:induction false} SortPickedSorts(cookies: seq<StoredCookie>, pick: StoredCookie -> bool, n: nat)
    requires n <= |cookies| && CreationOrdered(cookies)
    ensures Sorted(cookies, SortPicked(cookies, pick, n))
  {
    if n == 0 {
    } else {
      var rest := SortPicked(cookies, pick, n - 1);
      SortPickedSorts(cookies, pick, n - 1);
      if pick(cookies[n - 1]) {
        PickedBelow(cookies, pick, n - 1);
        InsertSorts(cookies, rest, n - 1);
      }
    }
  }

  lemma FirstPrecedes(cookies: seq<StoredCookie>, order: seq<nat>, i: nat)
    requires Sorted(cookies, order) && i in multiset(order)
    ensures order != [] && i < |cookies| && (i == order[0] || Precedes(cookies, order[0], i))
  {
    var k :| 0 <= k < |order| && order[k] == i;
    if k > 0 {
      assert Ranked(cookies, order, 0, k);
    }
  }

  lemma SameFirst(cookies: seq<StoredCookie>, a: seq<nat>, b: seq<nat>)
    requires Sorted(cookies, a) && Sorted(cookies, b) && multiset(a) == multiset(b) && a != [] && b != []
    ensures a[0] == b[0]
  {
    assert a[0] in multiset(a) && b[0] in multiset(b);
    FirstPrecedes(cookies, b, a[0]);
    FirstPrecedes(cookies, a, b[0]);
  }

  /** There is only one way to sort given positions. */
  lemma {:induction false} SortedIsUnique(cookies: seq<StoredCookie>, a: seq<nat>, b: seq<nat>)
    requires Sorted(cookies, a) && Sorted(cookies, b) && multiset(a) == multiset(b)
    ensures a == b
  {
    assert |a| == |multiset(a)| == |b|;
    if a == [] {
    } else {
      SameFirst(cookies, a, b);
      SortedTail(cookies, a);
      SortedTail(cookies, b);
      SortedIsUnique(cookies, a[1..], b[1..]);
      assert a == [a[0]] + a[1..] && b == [b[0]] + b[1..];
    }
  }

  lemma StrictOrder(cookies: seq<StoredCookie>, order: seq<nat>)
    requires Sorted(cookies, order) && Pairwise(cookies, true)
    ensures ByPathThenCreation(cookies, order)
  {
    forall k, l | 0 <= k < l < |order| ensures Before(cookies, order[k], order[l]) {
      assert Ranked(cookies, order, k, l);
      assert order[k] < order[l] ==> PairOk(cookies[order[k]], cookies[order[l]], true);
    }
  }

  /** A retrieval at `now`, from any reachable store, lists exactly the unexpired matching
      cookies, each once, longest path first and then in order of creation; and that list is
      the only one with these properties. */
  lemma HeaderListsMatchingCookies(lib: Library, ops: seq<Op>, now: Time, host: string, path: string, secure: bool)
    ensures var cookies := AfterPurge(AfterAll(lib, ops), now).cookies;
            var order := Order(lib, cookies, host, path, secure);
            && Sorted(cookies, order)
            && CreationOrdered(cookies)
            && (AfterAll(lib, ops).nextCreation < U64_MAX ==> ByPathThenCreation(cookies, order))
            && (forall i :: 0 <= i < |cookies| ==> !IsExpired(cookies[i], now))
            && (forall c :: c in AfterAll(lib, ops).cookies && !IsExpired(c, now) ==> c in cookies)
            && (forall i: nat ::
                  Times(order, i) == if i < |cookies| && Matches(lib, cookies[i], host, path, secure) then 1 else 0)
            && (forall other: seq<nat> ::
                  Sorted(cookies, other) && multiset(other) == multiset(order) ==> other == order)
  {
    var jar := AfterAll(lib, ops);
    StoreStaysGood(lib, ops);
    PurgeKeeps(jar, now);
    var cookies := AfterPurge(jar, now).cookies;
    PurgeContents(jar.cookies, now);
    forall i, j | 0 <= i < j < |cookies| ensures CreatedBefore(cookies, i, j) {
      assert PairOk(cookies[i], cookies[j], jar.nextCreation < U64_MAX);
    }
    SortPickedSorts(cookies, Matcher(lib, host, path, secure), |cookies|);
    var order := Order(lib, cookies, host, path, secure);
    if jar.nextCreation < U64_MAX {
      StrictOrder(cookies, order);
    }
    forall i: nat
      ensures Times(order, i) == if i < |cookies| && Matches(lib, cookies[i], host, path, secure) then 1 else 0
    {
      ListsPickedOnce(cookies, Matcher(lib, host, path, secure), |cookies|, i);
    }
    forall other: seq<nat> | Sorted(cookies, other) && multiset(other) == multiset(order) ensures other == order {
      SortedIsUnique(cookies, other, order);
    }
  }

  // ----- Round trip -----

  /** A stored cookie as it stands in the store: new, or in the place and with the creation of
      the one it replaces. */
  function Stored(jar: Jar, candidate: StoredCookie): StoredCookie {
    var existing := Find(jar.cookies, candidate);
    if existing.None? then Fresh(jar, candidate)
    else candidate.(lastAccess := jar.nextAccess, creation := jar.cookies[existing.value].creation)
  }

  /** The new cookie is not the one that the caps evict. */
  predicate HasRoom(jar: Jar, candidate: StoredCookie) {
    || Find(jar.cookies, candidate).Some?
    || candidate.secure
    || HasNonSecure(jar.cookies, candidate.domain)
    || CountDomain(jar.cookies, candidate.domain) < MAX_COOKIES_PER_DOMAIN
  }

  lemma StoreStores(lib: Library, jar: Jar, candidate: StoredCookie, originSecure: bool, now: Time)
    requires Good(jar) && CountersFit(jar) && PairSound(candidate) && HasRoom(jar, candidate)
    requires !IsExpired(candidate, now) && (originSecure || !Overlays(lib, jar.cookies, candidate))
    ensures Stored(jar, candidate) in AfterStore(lib, jar, candidate, originSecure, now).cookies
  {
    var existing := Find(jar.cookies, candidate);
    if existing.Some? {
      assert jar.cookies[existing.value := Stored(jar, candidate)][existing.value] == Stored(jar, candidate);
    } else {
      FreshSurvivesIff(lib, jar, candidate, originSecure, now);
    }
  }

  /** A store keeps the parsed cookie: it is accepted, not expired, overlays no Secure cookie
      from a non-secure origin, and has room. */
  predicate Kept(lib: Library, jar: Jar, parsed: Option<StoredCookie>, originSecure: bool, now: Time) {
    && parsed.Some?
    && !IsExpired(parsed.value, now)
    && (originSecure || !Overlays(lib, jar.cookies, parsed.value))
    && HasRoom(jar, parsed.value)
  }

  /** The stored cookie is in the store, and the retrieval lists it once or not at all. */
  ghost predicate ListedIff(lib: Library, cookies: seq<StoredCookie>, c: StoredCookie, host: string, path: string,
                            secure: bool, listed: bool) {
    exists i :: 0 <= i < |cookies| && cookies[i] == c
                && Times(Order(lib, cookies, host, path, secure), i) == if listed then 1 else 0
  }

  lemma ListedIffMatches(lib: Library, cookies: seq<StoredCookie>, c: StoredCookie, host: string, path: string,
                         secure: bool)
    requires c in cookies
    ensures ListedIff(lib, cookies, c, host, path, secure, Matches(lib, c, host, path, secure))
  {
    var i :| 0 <= i < |cookies| && cookies[i] == c;
    ListsPickedOnce(cookies, Matcher(lib, host, path, secure), |cookies|, i);
  }

  /** Round trip: from any reachable store, a cookie that a store keeps is, until it expires and
      no longer, there for the next request to the address that set it; and that request's
      header lists it, once, iff the address is within the cookie's path. */
  lemma StoredCookieIsSentBack(lib: Library, ops: seq<Op>, value: string, host: string, path: string,
                               secure: bool, now: Time, later: Time)
    ensures var before := AfterAll(lib, ops);
            var parsed := Parse(lib, value, host, path, secure, now);
            var sent := AfterPurge(AfterOp(lib, before, StoreOp(value, host, path, secure, now)), later).cookies;
            Kept(lib, before, parsed, secure, now) ==>
              && (Stored(before, parsed.value) in sent <==> !IsExpired(parsed.value, later))
              && (!IsExpired(parsed.value, later) ==>
                    ListedIff(lib, sent, Stored(before, parsed.value), host, path, secure,
                              PathMatches(path, parsed.value.path)))
  {
    var before := AfterAll(lib, ops);
    var parsed := Parse(lib, value, host, path, secure, now);
    if Kept(lib, before, parsed, secure, now) {
      StoreStaysGood(lib, ops);
      StoreStores(lib, before, parsed.value, secure, now);
      var after := AfterStore(lib, before, parsed.value, secure, now);
      PurgeContents(after.cookies, later);
      if !IsExpired(parsed.value, later) {
        ParsedMatchesIff(lib, value, host, path, secure, now);
        ListedIffMatches(lib, AfterPurge(after, later).cookies, Stored(before, parsed.value), host, path, secure);
      }
    }
  }
}
