/** Names derived for PostgreSQL and Kubernetes objects; strings are sequences of bytes. */
module Identifiers {
  import opened Basics

  const PG_MAX := 63
  const PG_PREFIX := 47
  const PG_HASH := 15
  const K8S_MAX := 253
  const K8S_RESERVE := 15

  /** A digest printed as lower-case hexadecimal. */
  type Hash = h: string -> string | forall s :: |h(s)| == 64 witness (s: string) => seq(64, _ => '0')

  // ------------------------------------------------------------ the functions

  predicate DoubleHyphenAt(s: string, p: int) {
    0 <= p && p + 1 < |s| && s[p] == '-' && s[p + 1] == '-'
  }

  predicate HasDoubleHyphen(s: string) {
    exists p :: 0 <= p < |s| && DoubleHyphenAt(s, p)
  }

  /** The validation looks for the two characters anywhere in the name. */
  lemma DoubleHyphenIff(s: string)
    ensures HasDoubleHyphen(s) <==> exists a, b :: s == a + "--" + b
  {
    if HasDoubleHyphen(s) {
      var p :| 0 <= p < |s| && DoubleHyphenAt(s, p);
      assert s == s[..p] + "--" + s[p + 2..];
    }
    if exists a, b :: s == a + "--" + b {
      var a, b :| s == a + "--" + b;
      assert DoubleHyphenAt(s, |a|);
    }
  }

  datatype Invalid = InvalidNamespace | InvalidApp

  function ValidatePGInputs(namespace: string, app: string): Result<(), Invalid> {
    if HasDoubleHyphen(namespace) then Err(InvalidNamespace)
    else if HasDoubleHyphen(app) then Err(InvalidApp)
    else Ok(())
  }

  lemma ValidationIsExact(namespace: string, app: string)
    ensures ValidatePGInputs(namespace, app) == Err(InvalidNamespace) <==> exists a, b :: namespace == a + "--" + b
    ensures ValidatePGInputs(namespace, app) == Err(InvalidApp) <==>
      (exists a, b :: app == a + "--" + b) && !exists a, b :: namespace == a + "--" + b
  {
    DoubleHyphenIff(namespace);
    DoubleHyphenIff(app);
  }

  function Sanitised(c: char): char {
    if c == '-' then '_' else c
  }

  function Sanitise(s: string): string {
    seq(|s|, i requires 0 <= i < |s| => Sanitised(s[i]))
  }

  function Truncate(full: string, hash: Hash): string
    requires |full| > PG_MAX
  {
    full[..PG_PREFIX] + "_" + hash(full)[..PG_HASH]
  }

  function Identifier(full: string, hash: Hash): (r: string)
    ensures |r| <= PG_MAX && (|full| <= PG_MAX ==> r == full)
  {
    if |full| > PG_MAX then Truncate(full, hash) else full
  }

  function Body(namespace: string, app: string): string {
    Sanitise(namespace) + "__" + Sanitise(app)
  }

  function DatabaseFull(namespace: string, app: string): string {
    "wasm_" + Body(namespace, app)
  }

  function UserFull(namespace: string, app: string, user: string): string {
    "wasm_" + (Body(namespace, app) + "__" + Sanitise(user))
  }

  function PGDatabaseName(namespace: string, app: string, hash: Hash): (r: string)
    ensures |r| <= PG_MAX
  {
    Identifier(DatabaseFull(namespace, app), hash)
  }

  function PGUsername(namespace: string, app: string, user: string, hash: Hash): (r: string)
    ensures |r| <= PG_MAX
  {
    Identifier(UserFull(namespace, app, user), hash)
  }

  /** Names for Kubernetes are cut 16 characters short of the limit, for a hyphen and 15 hash characters. */
  function Shortened(base: string, max: nat, hash: Hash): (r: string)
    requires max >= 16
    ensures |r| <= max && (|base| <= max ==> r == base)
  {
    if |base| > max then base[..max - 16] + "-" + hash(base)[..15] else base
  }

  function CredentialBase(namespace: string, app: string, user: string): string {
    "wasm-" + namespace + "-" + app + "-" + user
  }

  function MigrationBase(namespace: string, app: string): string {
    "wasm-" + namespace + "-" + app + "-migrations"
  }

  function K8sCredentialName(namespace: string, app: string, user: string, hash: Hash): (r: string)
    ensures |r| <= K8S_MAX - K8S_RESERVE + 3 < K8S_MAX
    ensures |namespace| + |app| + |user| <= 231 ==> r == "wasm-" + namespace + "-" + app + "-" + user + "-pg"
  {
    Shortened(CredentialBase(namespace, app, user), K8S_MAX - K8S_RESERVE, hash) + "-pg"
  }

  function MigrationSetName(namespace: string, app: string, hash: Hash): (r: string)
    ensures |r| <= K8S_MAX
    ensures |namespace| + |app| <= 236 ==> r == "wasm-" + namespace + "-" + app + "-migrations"
  {
    Shortened(MigrationBase(namespace, app), K8S_MAX, hash)
  }

  // ------------------------------------------------------------ injectivity

  /** A name of the shape of section 2.1 of RFC 1123, as far as the encoding cares. */
  predicate Name(s: string) {
    && s != ""
    && (forall i :: 0 <= i < |s| ==> s[i] != '_')
    && s[0] != '-' && s[|s| - 1] != '-'
  }

  /** Exactly two hyphens in a row, with something else on both sides. */
  predicate IsolatedAt(s: string, p: int) {
    0 < p && p + 2 < |s| && DoubleHyphenAt(s, p) && s[p - 1] != '-' && s[p + 2] != '-'
  }

  predicate HasIsolated(s: string) {
    exists p :: 0 < p < |s| && IsolatedAt(s, p)
  }

  /** Without underscores, sanitising loses nothing. */
  lemma SanitiseInjective(s: string, t: string)
    requires Sanitise(s) == Sanitise(t) && (forall i :: 0 <= i < |s| ==> s[i] != '_')
      && (forall i :: 0 <= i < |t| ==> t[i] != '_')
    ensures s == t
  {
    assert |s| == |Sanitise(s)| == |Sanitise(t)| == |t|;
    forall i | 0 <= i < |s|
      ensures s[i] == t[i]
    {
      assert Sanitise(s)[i] == Sanitised(s[i]) && Sanitise(t)[i] == Sanitised(t[i]);
    }
  }

  /** What stands where in the encoding of a pair. */
  lemma BodyAt(n: string, a: string, k: nat)
    requires k < |n| + 2 + |a|
    ensures |Body(n, a)| == |n| + 2 + |a|
    ensures Body(n, a)[k] == if k < |n| then Sanitised(n[k]) else if k < |n| + 2 then '_' else Sanitised(a[k - |n| - 2])
  {
  }

  /** The separator of one reading, seen in another with a longer first part, is an isolated pair there. */
  lemma ShorterSplit(n: string, a: string, m: string, b: string)
    requires Name(n) && Name(a) && Name(m) && Name(b) && Body(n, a) == Body(m, b) && |m| < |n|
    ensures IsolatedAt(n, |m|)
  {
    var p := |m|;
    BodyAt(n, a, 0);
    BodyAt(m, b, 0);
    BodyAt(m, b, p - 1);
    BodyAt(m, b, p);
    BodyAt(m, b, p + 1);
    BodyAt(m, b, p + 2);
    BodyAt(n, a, p);
    assert n[p] == '-';
    assert p + 1 < |n|;
    BodyAt(n, a, p + 1);
    assert n[p + 1] == '-';
    assert p + 2 < |n|;
    BodyAt(n, a, p - 1);
    BodyAt(n, a, p + 2);
  }

  /** ... or, with a shorter first part, an isolated pair of the second. */
  lemma LongerSplit(n: string, a: string, m: string, b: string)
    requires Name(n) && Name(a) && Name(m) && Name(b) && Body(n, a) == Body(m, b) && |m| > |n|
    ensures IsolatedAt(a, |m| - |n| - 2)
  {
    var p := |m|;
    BodyAt(n, a, 0);
    BodyAt(m, b, 0);
    BodyAt(m, b, p - 1);
    BodyAt(m, b, p);
    BodyAt(m, b, p + 1);
    BodyAt(m, b, p + 2);
    BodyAt(n, a, p - 1);
    assert p - 1 > |n| + 1;
    var q := p - |n| - 2;
    BodyAt(n, a, p);
    BodyAt(n, a, p + 1);
    BodyAt(n, a, p + 2);
    assert q > 0 && a[q - 1] != '-';
  }

  lemma SameSplit(n: string, a: string, m: string, b: string)
    requires Name(n) && Name(a) && Name(m) && Name(b) && Body(n, a) == Body(m, b) && |m| == |n|
    ensures m == n && b == a
  {
    assert Sanitise(n) == Body(n, a)[..|n|] && Sanitise(m) == Body(m, b)[..|n|];
    assert Sanitise(a) == Body(n, a)[|n| + 2..] && Sanitise(b) == Body(m, b)[|n| + 2..];
    SanitiseInjective(n, m);
    SanitiseInjective(a, b);
  }

  /** An isolated pair is a second separator: moving it gives another pair of names with the same encoding. */
  lemma MoveSeparatorLeft(n: string, a: string, p: int) returns (m: string, b: string)
    requires Name(n) && Name(a) && IsolatedAt(n, p)
    ensures Name(m) && Name(b) && Body(m, b) == Body(n, a) && m != n
  {
    m, b := n[..p], n[p + 2..] + "--" + a;
    assert |m| != |n|;
    forall k | 0 <= k < |n| + 2 + |a|
      ensures Body(m, b)[k] == Body(n, a)[k]
    {
      BodyAt(n, a, k);
      BodyAt(m, b, k);
    }
    BodyAt(n, a, 0);
    BodyAt(m, b, 0);
  }

  lemma MoveSeparatorRight(n: string, a: string, p: int) returns (m: string, b: string)
    requires Name(n) && Name(a) && IsolatedAt(a, p)
    ensures Name(m) && Name(b) && Body(m, b) == Body(n, a) && m != n
  {
    m, b := n + "--" + a[..p], a[p + 2..];
    assert |m| != |n|;
    forall k | 0 <= k < |n| + 2 + |a|
      ensures Body(m, b)[k] == Body(n, a)[k]
    {
      BodyAt(n, a, k);
      BodyAt(m, b, k);
    }
    BodyAt(n, a, 0);
    BodyAt(m, b, 0);
  }

  /** No other pair of names has this encoding. */
  ghost predicate Unambiguous(n: string, a: string) {
    forall m, b :: Name(m) && Name(b) && DatabaseFull(m, b) == DatabaseFull(n, a) ==> m == n && b == a
  }

  lemma FullIsBody(n: string, a: string, m: string, b: string)
    ensures DatabaseFull(m, b) == DatabaseFull(n, a) <==> Body(m, b) == Body(n, a)
  {
    assert DatabaseFull(m, b)[5..] == Body(m, b) && DatabaseFull(n, a)[5..] == Body(n, a);
  }

  /** Exactly when the untruncated database name identifies its namespace and application. */
  lemma DatabaseNameUnambiguousIff(n: string, a: string)
    requires Name(n) && Name(a)
    ensures Unambiguous(n, a) <==> !HasIsolated(n) && !HasIsolated(a)
  {
    if p :| 0 < p < |n| && IsolatedAt(n, p) {
      var m, b := MoveSeparatorLeft(n, a, p);
      FullIsBody(n, a, m, b);
    } else if p :| 0 < p < |a| && IsolatedAt(a, p) {
      var m, b := MoveSeparatorRight(n, a, p);
      FullIsBody(n, a, m, b);
    } else {
      forall m, b | Name(m) && Name(b) && DatabaseFull(m, b) == DatabaseFull(n, a)
        ensures m == n && b == a
      {
        FullIsBody(n, a, m, b);
        if |m| < |n| {
          ShorterSplit(n, a, m, b);
        } else if |m| > |n| {
          LongerSplit(n, a, m, b);
        } else {
          SameSplit(n, a, m, b);
        }
      }
    }
  }

  /** What ValidatePGInputs accepts has no isolated pair, so its untruncated database name is injective. */
  lemma DatabaseNameInjective(n: string, a: string, m: string, b: string, hash: Hash)
    requires Name(n) && Name(a) && Name(m) && Name(b) && ValidatePGInputs(n, a).Ok?
    requires |DatabaseFull(n, a)| <= PG_MAX && |DatabaseFull(m, b)| <= PG_MAX
    requires PGDatabaseName(n, a, hash) == PGDatabaseName(m, b, hash)
    ensures n == m && a == b
  {
    assert !HasIsolated(n) && !HasIsolated(a);
    DatabaseNameUnambiguousIff(n, a);
  }

  /** Two different names shortened to the same prefix and the same 60 bits of their hashes. */
  predicate HashesAgree(x: string, y: string, hash: Hash) {
    && |x| > PG_MAX && |y| > PG_MAX && x != y
    && x[..PG_PREFIX] == y[..PG_PREFIX] && hash(x)[..PG_HASH] == hash(y)[..PG_HASH]
  }

  /** A name of full length that spells what another one is shortened to. */
  predicate Spells(x: string, y: string, hash: Hash) {
    |x| == PG_MAX && |y| > PG_MAX && x == y[..PG_PREFIX] + "_" + hash(y)[..PG_HASH]
  }

  predicate Collides(x: string, y: string, hash: Hash) {
    HashesAgree(x, y, hash) || Spells(x, y, hash) || Spells(y, x, hash)
  }

  /** Exactly when two identifiers are the same. */
  lemma IdentifiersAgreeIff(x: string, y: string, hash: Hash)
    ensures Identifier(x, hash) == Identifier(y, hash) <==> x == y || Collides(x, y, hash)
  {
    if |x| > PG_MAX && |y| > PG_MAX {
      var u, v := Truncate(x, hash), Truncate(y, hash);
      assert u[..PG_PREFIX] == x[..PG_PREFIX] && u[PG_PREFIX + 1..] == hash(x)[..PG_HASH];
      assert v[..PG_PREFIX] == y[..PG_PREFIX] && v[PG_PREFIX + 1..] == hash(y)[..PG_HASH];
    }
  }

  /** Accepted pairs share a database name, truncated or not, only by being the same or by colliding. */
  lemma DatabaseNamesAgreeIff(n: string, a: string, m: string, b: string, hash: Hash)
    requires Name(n) && Name(a) && Name(m) && Name(b) && ValidatePGInputs(n, a).Ok?
    ensures PGDatabaseName(n, a, hash) == PGDatabaseName(m, b, hash) <==>
      (n == m && a == b) || Collides(DatabaseFull(n, a), DatabaseFull(m, b), hash)
  {
    IdentifiersAgreeIff(DatabaseFull(n, a), DatabaseFull(m, b), hash);
    assert !HasIsolated(n) && !HasIsolated(a);
    DatabaseNameUnambiguousIff(n, a);
    hide Collides, DatabaseFull, Identifier;
  }

  /** The case the check exists for. */
  lemma DoubleHyphenCollides(hash: Hash)
    ensures PGDatabaseName("a--b", "c", hash) == PGDatabaseName("a", "b--c", hash)
    ensures ValidatePGInputs("a--b", "c") == Err(InvalidNamespace) && ValidatePGInputs("a", "b--c") == Err(InvalidApp)
  {
    assert Sanitise("a--b") == "a__b" && Sanitise("b--c") == "b__c" && Sanitise("a") == "a" && Sanitise("c") == "c";
    assert Body("a--b", "c") == "a__b__c" == Body("a", "b--c");
    assert DoubleHyphenAt("a--b", 1) && DoubleHyphenAt("b--c", 1);
    assert !HasDoubleHyphen("a");
  }

  // ------------------------------------------------------------ users

  lemma UserSplit(n: string, a: string, u: string)
    ensures UserFull(n, a, u)[5..] == Sanitise(n) + "__" + (Sanitise(a) + "__" + Sanitise(u))
  {
  }

  /** No "__" in the sanitised form of an accepted name, and none at its edges. */
  predicate Accepted(s: string) {
    Name(s) && !HasDoubleHyphen(s)
  }

  /** A separator that falls inside a name is two hyphens of it. */
  lemma SeparatorInside(n: string, rest: string, m: string, other: string)
    requires Name(n) && Sanitise(n) + "__" + rest == Sanitise(m) + "__" + other && |m| < |n|
    ensures HasDoubleHyphen(n)
  {
    var x, p := Sanitise(n) + "__" + rest, |m|;
    assert x[p] == '_' && x[p + 1] == '_';
    assert x[p] == Sanitised(n[p]) && n[p] == '-';
    assert p + 1 < |n|;
    assert x[p + 1] == Sanitised(n[p + 1]) && n[p + 1] == '-';
    assert DoubleHyphenAt(n, p);
  }

  /** In x__y, the first part ends at the first "__" when it is an accepted name followed by no underscore. */
  lemma FirstPart(n: string, rest: string, m: string, other: string)
    requires Accepted(n) && Accepted(m) && Sanitise(n) + "__" + rest == Sanitise(m) + "__" + other
    ensures n == m && rest == other
  {
    var x, y := Sanitise(n) + "__" + rest, Sanitise(m) + "__" + other;
    if |m| < |n| {
      SeparatorInside(n, rest, m, other);
    } else if |n| < |m| {
      SeparatorInside(m, other, n, rest);
    } else {
      assert Sanitise(n) == x[..|n|] && Sanitise(m) == y[..|n|];
      SanitiseInjective(n, m);
      assert rest == x[|n| + 2..] && other == y[|n| + 2..];
    }
  }

  lemma UserFullDetermines(n: string, a: string, u: string, m: string, b: string, v: string)
    requires Accepted(n) && Accepted(a) && Accepted(m) && Accepted(b) && UserFull(n, a, u) == UserFull(m, b, v)
    ensures n == m && a == b && Sanitise(u) == Sanitise(v)
  {
    hide Sanitise, UserFull, Accepted;
    UserSplit(n, a, u);
    UserSplit(m, b, v);
    FirstPart(n, Sanitise(a) + "__" + Sanitise(u), m, Sanitise(b) + "__" + Sanitise(v));
    FirstPart(a, Sanitise(u), b, Sanitise(v));
  }

  /** An untruncated user name determines namespace, application and sanitised user name. */
  lemma UsernameDetermines(n: string, a: string, u: string, m: string, b: string, v: string, hash: Hash)
    requires Accepted(n) && Accepted(a) && Accepted(m) && Accepted(b)
    requires |UserFull(n, a, u)| <= PG_MAX && |UserFull(m, b, v)| <= PG_MAX
    requires PGUsername(n, a, u, hash) == PGUsername(m, b, v, hash)
    ensures n == m && a == b && Sanitise(u) == Sanitise(v)
  {
    UserFullDetermines(n, a, u, m, b, v);
  }

  /** The same for user names, which tell users apart up to their sanitised form. */
  lemma UsernamesAgreeIff(n: string, a: string, u: string, m: string, b: string, v: string, hash: Hash)
    requires Accepted(n) && Accepted(a) && Accepted(m) && Accepted(b)
    ensures PGUsername(n, a, u, hash) == PGUsername(m, b, v, hash) <==>
      (n == m && a == b && Sanitise(u) == Sanitise(v)) || Collides(UserFull(n, a, u), UserFull(m, b, v), hash)
  {
    IdentifiersAgreeIff(UserFull(n, a, u), UserFull(m, b, v), hash);
    if UserFull(n, a, u) == UserFull(m, b, v) {
      UserFullDetermines(n, a, u, m, b, v);
    }
    hide Collides, Identifier, Sanitise, Accepted;
  }

  // ------------------------------------------------------------ Kubernetes names

  /** Two different names that shorten alike, or one that spells what the other is shortened to. */
  predicate ShortensAlike(x: string, y: string, max: nat, hash: Hash)
    requires max >= 16
  {
    || (|x| > max && |y| > max && x != y && x[..max - 16] == y[..max - 16] && hash(x)[..15] == hash(y)[..15])
    || (|x| == max && |y| > max && x == y[..max - 16] + "-" + hash(y)[..15])
    || (|y| == max && |x| > max && y == x[..max - 16] + "-" + hash(x)[..15])
  }

  lemma ShortenedAgreeIff(x: string, y: string, max: nat, hash: Hash)
    requires max >= 16
    ensures Shortened(x, max, hash) == Shortened(y, max, hash) <==> x == y || ShortensAlike(x, y, max, hash)
  {
    if |x| > max && |y| > max {
      var u, v := Shortened(x, max, hash), Shortened(y, max, hash);
      assert u[..max - 16] == x[..max - 16] && u[max - 15..] == hash(x)[..15];
      assert v[..max - 16] == y[..max - 16] && v[max - 15..] == hash(y)[..15];
    }
  }

  /** Credentials share a name if and only if their full names are the same or shorten alike. */
  lemma CredentialNamesAgreeIff(n: string, a: string, u: string, m: string, b: string, v: string, hash: Hash)
    ensures var x, y := "wasm-" + n + "-" + a + "-" + u, "wasm-" + m + "-" + b + "-" + v;
      K8sCredentialName(n, a, u, hash) == K8sCredentialName(m, b, v, hash) <==>
        x == y || ShortensAlike(x, y, K8S_MAX - K8S_RESERVE, hash)
  {
    var x, y := CredentialBase(n, a, u), CredentialBase(m, b, v);
    ShortenedAgreeIff(x, y, K8S_MAX - K8S_RESERVE, hash);
    var p, q := Shortened(x, K8S_MAX - K8S_RESERVE, hash), Shortened(y, K8S_MAX - K8S_RESERVE, hash);
    hide Shortened, ShortensAlike;
    assert (p + "-pg")[..|p + "-pg"| - 3] == p && (q + "-pg")[..|q + "-pg"| - 3] == q;
  }

  lemma MigrationNamesAgreeIff(n: string, a: string, m: string, b: string, hash: Hash)
    ensures var x, y := "wasm-" + n + "-" + a + "-migrations", "wasm-" + m + "-" + b + "-migrations";
      MigrationSetName(n, a, hash) == MigrationSetName(m, b, hash) <==> x == y || ShortensAlike(x, y, K8S_MAX, hash)
  {
    ShortenedAgreeIff(MigrationBase(n, a), MigrationBase(m, b), K8S_MAX, hash);
  }
}
