/** Every key the application builds in Redis, and why no two of them collide. */
module Keys {

  function BuildKey(userId: string, key: string): string {
    "idempotency:" + userId + ":" + key
  }

  function CounterKey(key: string): string {
    "throttle:" + key
  }

  function BlockKey(key: string): string {
    "throttle:block:" + key
  }

  /** Which cached query a cache id stands for. */
  datatype CachedQuery =
    | PostsByPage(page: int)
    | PostsByAuthor(postUid: string, page: int)
    | PostLikes(postId: int)
    | UserInfo(uid: string)
    | UserAuth(uid: string)
    | UserSession(uid: string)

  function CacheId(q: CachedQuery): string {
    match q
    case PostsByPage(page) => "getPostEntityListByPage_" + Decimal(page)
    case PostsByAuthor(postUid, page) => "getPostEntityListByPostPageDto_" + postUid + "_" + Decimal(page)
    case PostLikes(postId) => "PostLikeEntityList_" + Decimal(postId)
    case UserInfo(uid) => "UserInfoEntity_" + uid
    case UserAuth(uid) => "UserAuthEntity_" + uid
    case UserSession(uid) => "UserSessionEntity_" + uid
  }

  /** An integer inside a string template. */
  function Decimal(n: int): (s: string)
    ensures |s| > 0 && '_' !in s
  {
    if n < 0 then "-" + Digits(-n) else Digits(n)
  }

  function Digits(n: nat): (s: string)
    ensures |s| > 0 && forall i | 0 <= i < |s| :: '0' <= s[i] <= '9'
  {
    var last := [('0' as int + n % 10) as char];
    if n < 10 then last else Digits(n / 10) + last
  }

  function ParseDigits(s: string): int {
    if s == "" then 0
    else ParseDigits(s[..|s| - 1]) * 10 + (s[|s| - 1] as int - '0' as int)
  }

  lemma {:induction false} DigitsRoundTrip(n: nat)
    ensures ParseDigits(Digits(n)) == n
  {
    var s := Digits(n);
    assert s[|s| - 1] as int - '0' as int == n % 10;
    if n < 10 {
      assert s[..|s| - 1] == "";
    } else {
      assert s[..|s| - 1] == Digits(n / 10);
      DigitsRoundTrip(n / 10);
    }
  }

  lemma DecimalIsInjective(a: int, b: int)
    requires Decimal(a) == Decimal(b)
    ensures a == b
  {
    var x, y := Digits(if a < 0 then -a else a), Digits(if b < 0 then -b else b);
    assert a < 0 ==> Decimal(a)[0] == '-' && Decimal(a)[1..] == x;
    assert b < 0 ==> Decimal(b)[0] == '-' && Decimal(b)[1..] == y;
    assert x == y;
    DigitsRoundTrip(if a < 0 then -a else a);
    DigitsRoundTrip(if b < 0 then -b else b);
  }

  predicate IsHex(c: char) {
    '0' <= c <= '9' || 'a' <= c <= 'f' || 'A' <= c <= 'F'
  }

  /** The version 4 pattern of RFC 4122, in either letter case. */
  predicate IsUuidV4(s: string) {
    && |s| == 36
    && s[8] == s[13] == s[18] == s[23] == '-'
    && s[14] == '4'
    && s[19] in "89abAB"
    && forall i | 0 <= i < 36 && i != 8 && i != 13 && i != 18 && i != 23 :: IsHex(s[i])
  }

  /** One place of a version 4 UUID as it is usually written: `x` is any hex digit, `y` one
      of 8, 9, a and b, and all else itself. */
  predicate FitsPlace(place: char, c: char) {
    match place
    case 'x' => c in "0123456789abcdefABCDEF"
    case 'y' => c in "89abAB"
    case _ => c == place
  }

  /** The pattern is the usual template, place by place. */
  lemma UuidIsTemplate(s: string)
    ensures var template := "xxxxxxxx-xxxx-4xxx-yxxx-xxxxxxxxxxxx";
            IsUuidV4(s) <==> |s| == |template| && forall i | 0 <= i < |template| :: FitsPlace(template[i], s[i])
  {
    var template := "xxxxxxxx-xxxx-4xxx-yxxx-xxxxxxxxxxxx";
    forall c: char
      ensures FitsPlace('x', c) <==> IsHex(c)
    {
      HexIsListed(c);
    }
    assert forall i | 0 <= i < 36 :: template[i] == if i == 8 || i == 13 || i == 18 || i == 23 then '-'
                                                   else if i == 14 then '4' else if i == 19 then 'y' else 'x';
  }

  lemma HexIsListed(c: char)
    ensures c in "0123456789abcdefABCDEF" <==> IsHex(c)
  {
    var s := "0123456789abcdefABCDEF";
    if IsHex(c) {
      var i := if c <= '9' then c as int - '0' as int
               else if c <= 'F' then 16 + c as int - 'A' as int else 10 + c as int - 'a' as int;
      assert s[i] == c;
    }
  }

  predicate ColonFree(s: string) {
    ':' !in s
  }

  lemma EqualTails(p: string, x: string, q: string, y: string)
    requires p + x == q + y && |x| == |y|
    ensures p == q && x == y
  {
    assert |p| == |q|;
    assert p == (p + x)[..|p|] == (q + y)[..|q|] == q;
    assert x == (p + x)[|p|..] == (q + y)[|q|..] == y;
  }

  lemma EqualAfterPrefix(p: string, x: string, y: string)
    requires p + x == p + y
    ensures x == y
  {
    assert x == (p + x)[|p|..] == (p + y)[|p|..] == y;
  }

  /** Any user id, even one with colons, stays apart from the key that follows it. */
  lemma BuildKeyIsInjective(u: string, k: string, u': string, k': string)
    requires IsUuidV4(k) && IsUuidV4(k')
    requires BuildKey(u, k) == BuildKey(u', k')
    ensures u == u' && k == k'
  {
    EqualTails("idempotency:" + u + ":", k, "idempotency:" + u' + ":", k');
    assert ("idempotency:" + u) + ":" == "idempotency:" + u + ":";
    assert ("idempotency:" + u') + ":" == "idempotency:" + u' + ":";
    EqualTails("idempotency:" + u, ":", "idempotency:" + u', ":");
    EqualAfterPrefix("idempotency:", u, u');
  }

  function LowerCase(c: char): char {
    if 'A' <= c <= 'Z' then (c as int - 'A' as int + 'a' as int) as char else c
  }

  predicate IsLetter(c: char) {
    'a' <= LowerCase(c) <= 'z'
  }

  /** Two spellings of one text: the same but for the case of letters. */
  predicate SameUpToCase(k: string, k': string) {
    |k| == |k'| && forall i | 0 <= i < |k| :: LowerCase(k[i]) == LowerCase(k'[i])
  }

  /** The pattern accepts a key in every spelling or in none, but each spelling is a key
      of its own in the store. */
  lemma SpellingsAreKeys(u: string, k: string, k': string)
    requires SameUpToCase(k, k')
    ensures IsUuidV4(k) <==> IsUuidV4(k')
    ensures IsUuidV4(k) ==> (BuildKey(u, k) == BuildKey(u, k') <==> k == k')
  {
    if IsUuidV4(k) { SpellingKeepsUuid(k, k'); }
    if IsUuidV4(k') { SpellingKeepsUuid(k', k); }
    if IsUuidV4(k) && BuildKey(u, k) == BuildKey(u, k') { BuildKeyIsInjective(u, k, u, k'); }
  }

  lemma SpellingKeepsUuid(k: string, k': string)
    requires SameUpToCase(k, k') && IsUuidV4(k)
    ensures IsUuidV4(k')
  {
    assert forall i | 0 <= i < 36 :: LowerCase(k[i]) == LowerCase(k'[i]);
  }

  /** All spellings of a UUID share one key exactly if it is written without a letter. */
  lemma OneKeyIffNoLetter(u: string, k: string)
    requires IsUuidV4(k)
    ensures (forall k' | SameUpToCase(k, k') :: BuildKey(u, k) == BuildKey(u, k'))
            <==> forall i | 0 <= i < |k| :: !IsLetter(k[i])
  {
    if i :| 0 <= i < |k| && IsLetter(k[i]) {
      var other := if k[i] == LowerCase(k[i]) then (k[i] as int - 'a' as int + 'A' as int) as char else LowerCase(k[i]);
      var k' := k[i := other];
      SpellingsAreKeys(u, k, k');
      assert k'[i] != k[i];
    } else {
      forall k' | SameUpToCase(k, k')
        ensures k == k'
      {
        assert forall i | 0 <= i < |k| :: LowerCase(k[i]) == LowerCase(k'[i]);
      }
    }
  }

  /** A counter key of one tracker is a block key of another exactly when its hash
      carries the "block:" prefix, which a hash without colons cannot. */
  lemma CounterMeetsBlock(a: string, b: string)
    ensures CounterKey(a) == BlockKey(b) <==> a == "block:" + b
    ensures ColonFree(a) ==> CounterKey(a) != BlockKey(b)
  {
    assert BlockKey(b) == "throttle:" + ("block:" + b);
    if CounterKey(a) == BlockKey(b) {
      EqualAfterPrefix("throttle:", a, "block:" + b);
      assert a[5] == ':';
    }
  }

  lemma ThrottleKeysAreInjective(a: string, b: string)
    ensures CounterKey(a) == CounterKey(b) ==> a == b
    ensures BlockKey(a) == BlockKey(b) ==> a == b
  {
    if CounterKey(a) == CounterKey(b) { EqualAfterPrefix("throttle:", a, b); }
    if BlockKey(a) == BlockKey(b) { EqualAfterPrefix("throttle:block:", a, b); }
  }

  /** The part of a cache id that names its query. */
  function Family(q: CachedQuery): string {
    match q
    case PostsByPage(_) => "getPostEntityListByPage_"
    case PostsByAuthor(_, _) => "getPostEntityListByPostPageDto_"
    case PostLikes(_) => "PostLikeEntityList_"
    case UserInfo(_) => "UserInfoEntity_"
    case UserAuth(_) => "UserAuthEntity_"
    case UserSession(_) => "UserSessionEntity_"
  }

  function Argument(q: CachedQuery): string {
    match q
    case PostsByPage(page) => Decimal(page)
    case PostsByAuthor(postUid, page) => postUid + "_" + Decimal(page)
    case PostLikes(postId) => Decimal(postId)
    case UserInfo(uid) => uid
    case UserAuth(uid) => uid
    case UserSession(uid) => uid
  }

  lemma CacheIdSplits(q: CachedQuery)
    ensures CacheId(q) == Family(q) + Argument(q)
  {
    if q.PostsByAuthor? {
      assert Family(q) + (q.postUid + "_" + Decimal(q.page)) == Family(q) + q.postUid + "_" + Decimal(q.page);
    }
  }

  /** Families differ at their first, fifth or twenty-first character, which all of
      them reach when the earlier ones agree. */
  lemma EqualIdsShareFamily(f: string, x: string, g: string, y: string)
    requires f + x == g + y
    requires exists q :: f == Family(q)
    requires exists r :: g == Family(r)
    ensures f == g
  {
    var id := f + x;
    assert f[0] == id[0] == g[0];
    assert f[4] == id[4] == g[4];
    if f[0] == 'g' {
      assert f[20] == id[20] == g[20];
    }
  }

  /** Cache ids name one query each, within a family and across families. */
  lemma CacheIdIsInjective(q: CachedQuery, r: CachedQuery)
    requires CacheId(q) == CacheId(r)
    ensures q == r
  {
    CacheIdSplits(q);
    CacheIdSplits(r);
    EqualIdsShareFamily(Family(q), Argument(q), Family(r), Argument(r));
    SameFamilySameKind(q, r);
    EqualAfterPrefix(Family(q), Argument(q), Argument(r));
    match q {
      case PostsByPage(page) => DecimalIsInjective(page, r.page);
      case PostLikes(postId) => DecimalIsInjective(postId, r.postId);
      case PostsByAuthor(postUid, page) => AuthorPageIsInjective(postUid, page, r.postUid, r.page);
      case _ =>
    }
  }

  lemma SameFamilySameKind(q: CachedQuery, r: CachedQuery)
    requires Family(q) == Family(r)
    ensures q.PostsByPage? == r.PostsByPage? && q.PostsByAuthor? == r.PostsByAuthor?
    ensures q.PostLikes? == r.PostLikes? && q.UserInfo? == r.UserInfo?
    ensures q.UserAuth? == r.UserAuth? && q.UserSession? == r.UserSession?
  {
    var f := Family(q);
    assert q.PostLikes? <==> f[0] == 'P';
    assert r.PostLikes? <==> f[0] == 'P';
    assert (q.PostsByPage? <==> f[0] == 'g' && f[20] == 'a') && (q.PostsByAuthor? <==> f[0] == 'g' && f[20] == 'o');
    assert (r.PostsByPage? <==> f[0] == 'g' && f[20] == 'a') && (r.PostsByAuthor? <==> f[0] == 'g' && f[20] == 'o');
  }

  /** The last underscore separates the author from the page number. */
  lemma AuthorPageIsInjective(u: string, p: int, u': string, p': int)
    requires u + "_" + Decimal(p) == u' + "_" + Decimal(p')
    ensures u == u' && p == p'
  {
    var x, y := Decimal(p), Decimal(p');
    var s := u + "_" + x;
    assert s[|u|] == '_' && s[|u'|] == '_';
    assert |u| == |u'|;
    EqualTails(u + "_", x, u' + "_", y);
    EqualTails(u, "_", u', "_");
    DecimalIsInjective(p, p');
  }

  predicate IsIdempotencyKey(k: string) {
    "idempotency:" <= k
  }

  predicate IsThrottleKey(k: string) {
    "throttle:" <= k
  }

  /** The three users of the server never write each other's keys. */
  lemma KeySpacesAreDisjoint(userId: string, key: string, tracker: string, q: CachedQuery)
    ensures IsIdempotencyKey(BuildKey(userId, key)) && !IsThrottleKey(BuildKey(userId, key))
    ensures IsThrottleKey(CounterKey(tracker)) && IsThrottleKey(BlockKey(tracker))
    ensures !IsIdempotencyKey(CounterKey(tracker)) && !IsIdempotencyKey(BlockKey(tracker))
    ensures !IsIdempotencyKey(CacheId(q)) && !IsThrottleKey(CacheId(q))
  {
    assert BuildKey(userId, key)[0] == 'i';
    assert CounterKey(tracker)[0] == BlockKey(tracker)[0] == 't';
    assert BlockKey(tracker) == "throttle:" + ("block:" + tracker);
    CacheIdSplits(q);
    assert CacheId(q)[0] == Family(q)[0];
  }
}
