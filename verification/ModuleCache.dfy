/** The module cache: raw Wasm by digest, least recently used out, within byte and entry budgets. */
module ModuleCache {
  import opened Basics

  datatype Digest = Digest(hex: string)
  type Bytes = seq<bv8>

  datatype Entry = Entry(digest: Digest, bytes: Bytes)

  datatype Refusal = Conflict | TooLarge | Internal

  datatype Limits = Limits(maxBytes: nat, maxEntries: nat)

  // ------------------------------------------------------------ the reference: a list, oldest use first

  function Total(l: seq<Entry>): nat {
    if l == [] then 0 else |l[0].bytes| + Total(l[1..])
  }

  function Digests(l: seq<Entry>): seq<Digest> {
    seq(|l|, i requires 0 <= i < |l| => l[i].digest)
  }

  function Lookup(l: seq<Entry>, d: Digest): Option<Bytes> {
    if l == [] then None else if l[0].digest == d then Some(l[0].bytes) else Lookup(l[1..], d)
  }

  function Remove(l: seq<Entry>, d: Digest): seq<Entry> {
    if l == [] then [] else if l[0].digest == d then l[1..] else [l[0]] + Remove(l[1..], d)
  }

  function Use(l: seq<Entry>, d: Digest): seq<Entry> {
    match Lookup(l, d) case None => l case Some(b) => Remove(l, d) + [Entry(d, b)]
  }

  predicate Fits(l: seq<Entry>, size: nat, limits: Limits) {
    Total(l) + size <= limits.maxBytes && |l| < limits.maxEntries
  }

  /** Drop the oldest until the newcomer fits. */
  function Evict(l: seq<Entry>, size: nat, limits: Limits): seq<Entry> {
    if l == [] || Fits(l, size, limits) then l else Evict(l[1..], size, limits)
  }

  datatype Stored = Stored(list: seq<Entry>, reply: Result<nat, Refusal>)

  function Insert(l: seq<Entry>, d: Digest, b: Bytes, limits: Limits): Stored {
    match Lookup(l, d)
    case Some(existing) => if existing != b then Stored(l, Err(Conflict)) else Stored(Use(l, d), Ok(0))
    case None =>
      if |b| > limits.maxBytes || limits.maxEntries == 0 then Stored(l, Err(TooLarge))
      else
        var kept := Evict(l, |b|, limits);
        Stored(kept + [Entry(d, b)], if |kept| <= |l| then Ok(|l| - |kept|) else Err(Internal))
  }

  ghost predicate Unique(l: seq<Entry>) {
    forall i, j :: 0 <= i < j < |l| ==> l[i].digest != l[j].digest
  }

  ghost predicate Has(l: seq<Entry>, d: Digest) {
    exists i :: 0 <= i < |l| && l[i].digest == d
  }

  /** Unique digests, both budgets kept. */
  ghost predicate Within(l: seq<Entry>, limits: Limits) {
    Unique(l) && Total(l) <= limits.maxBytes && |l| <= limits.maxEntries
  }

  // ------------------------------------------------------------ facts about the reference

  lemma {:induction false} TotalJoins(a: seq<Entry>, b: seq<Entry>)
    ensures Total(a + b) == Total(a) + Total(b)
    decreases |a|
  {
    if a == [] {
      assert a + b == b;
    } else {
      assert (a + b)[1..] == a[1..] + b;
      TotalJoins(a[1..], b);
    }
  }

  /** The shortest sufficient prefix of the oldest goes, and something always suffices. */
  lemma {:induction false} EvictsShortestPrefix(l: seq<Entry>, size: nat, limits: Limits)
    requires size <= limits.maxBytes && limits.maxEntries > 0
    ensures var kept := Evict(l, size, limits);
      && |kept| <= |l| && kept == l[|l| - |kept|..] && Fits(kept, size, limits)
      && forall k :: 0 <= k < |l| - |kept| ==> !Fits(l[k..], size, limits)
    decreases |l|
  {
    if l != [] && !Fits(l, size, limits) {
      EvictsShortestPrefix(l[1..], size, limits);
      var kept := Evict(l, size, limits);
      assert l[1..][|l| - 1 - |kept|..] == l[|l| - |kept|..];
      forall k | 0 <= k < |l| - |kept|
        ensures !Fits(l[k..], size, limits)
      {
        if k > 0 {
          assert l[k..] == l[1..][k - 1..];
        } else {
          assert l[0..] == l;
        }
      }
    } else {
      assert l == l[0..];
    }
  }

  lemma {:induction false} LookupAt(l: seq<Entry>, i: nat)
    requires Unique(l) && i < |l|
    ensures Lookup(l, l[i].digest) == Some(l[i].bytes) && Remove(l, l[i].digest) == l[..i] + l[i + 1..]
    decreases |l|
  {
    if i > 0 {
      assert l[0].digest != l[i].digest;
      LookupAt(l[1..], i - 1);
      assert [l[0]] + (l[1..][..i - 1] + l[1..][i..]) == l[..i] + l[i + 1..];
    } else {
      assert l[..0] + l[1..] == l[1..];
    }
  }

  lemma {:induction false} LookupAbsent(l: seq<Entry>, d: Digest)
    requires !Has(l, d)
    ensures Lookup(l, d) == None && Remove(l, d) == l
    decreases |l|
  {
    if l != [] {
      assert l[0].digest != d;
      assert forall i :: 0 <= i < |l| - 1 ==> l[1..][i] == l[i + 1];
      LookupAbsent(l[1..], d);
      assert [l[0]] + l[1..] == l;
    }
  }

  /** One entry moved to the young end. */
  function Moved(l: seq<Entry>, i: nat): seq<Entry>
    requires i < |l|
  {
    l[..i] + l[i + 1..] + [l[i]]
  }

  lemma MovedTotal(l: seq<Entry>, i: nat)
    requires i < |l|
    ensures Total(Moved(l, i)) == Total(l)
  {
    hide Total;
    TotalJoins(l[..i] + l[i + 1..], [l[i]]);
    TotalJoins(l[..i], l[i + 1..]);
    TotalJoins(l[..i], l[i..]);
    TotalJoins([l[i]], l[i + 1..]);
    assert l == l[..i] + l[i..] && l[i..] == [l[i]] + l[i + 1..];
  }

  lemma MovedUnique(l: seq<Entry>, i: nat)
    requires i < |l| && Unique(l)
    ensures Unique(Moved(l, i))
  {
  }

  lemma UseIs(l: seq<Entry>, d: Digest)
    requires Unique(l)
    ensures !Has(l, d) ==> Use(l, d) == l
    ensures forall i :: 0 <= i < |l| && l[i].digest == d ==> Use(l, d) == Moved(l, i)
  {
    if Has(l, d) {
      forall i | 0 <= i < |l| && l[i].digest == d
        ensures Use(l, d) == Moved(l, i)
      {
        LookupAt(l, i);
      }
    } else {
      LookupAbsent(l, d);
    }
  }

  /** A use changes no total and keeps digests unique. */
  lemma UseKeeps(l: seq<Entry>, d: Digest, limits: Limits)
    requires Within(l, limits)
    ensures Within(Use(l, d), limits) && |Use(l, d)| == |l|
  {
    UseIs(l, d);
    if i :| 0 <= i < |l| && l[i].digest == d {
      MovedTotal(l, i);
      MovedUnique(l, i);
      hide Total;
    }
  }

  lemma SuffixWithin(l: seq<Entry>, k: nat, limits: Limits)
    requires Within(l, limits) && k <= |l|
    ensures Within(l[k..], limits)
  {
    TotalJoins(l[..k], l[k..]);
    assert l == l[..k] + l[k..];
  }

  lemma LookupMisses(l: seq<Entry>, d: Digest)
    requires Unique(l) && Lookup(l, d).None?
    ensures !Has(l, d)
  {
    if i :| 0 <= i < |l| && l[i].digest == d {
      LookupAt(l, i);
    }
  }

  lemma OneTotal(e: Entry)
    ensures Total([e]) == |e.bytes|
  {
    assert [e][1..] == [];
  }

  /** A newcomer fits behind what eviction left. */
  lemma StoredKeeps(l: seq<Entry>, k: nat, e: Entry, limits: Limits)
    requires Within(l, limits) && !Has(l, e.digest) && k <= |l| && Fits(l[k..], |e.bytes|, limits)
    ensures Within(l[k..] + [e], limits)
  {
    hide Total;
    TotalJoins(l[k..], [e]);
    OneTotal(e);
    assert forall i :: 0 <= i < |l| - k ==> l[k..][i] == l[k + i];
  }

  /** Insertion keeps both budgets and uniqueness, and never ends in the internal error. */
  lemma InsertKeeps(l: seq<Entry>, d: Digest, b: Bytes, limits: Limits)
    requires Within(l, limits)
    ensures var s := Insert(l, d, b, limits); Within(s.list, limits) && s.reply != Err(Internal)
  {
    UseKeeps(l, d, limits);
    if Lookup(l, d).None? && |b| <= limits.maxBytes && limits.maxEntries > 0 {
      LookupMisses(l, d);
      EvictsShortestPrefix(l, |b|, limits);
      hide Within, Fits, Has, Evict, Lookup, Use;
      StoredKeeps(l, |l| - |Evict(l, |b|, limits)|, Entry(d, b), limits);
    }
  }

  // ------------------------------------------------------------ last-use order

  datatype Request = Get(digest: Digest) | Put(digest: Digest, bytes: Bytes)

  /** put_module hands over only what verifies against its digest. */
  function Serve(l: seq<Entry>, r: Request, limits: Limits, verify: (Digest, Bytes) -> bool): seq<Entry> {
    match r
    case Get(d) => Use(l, d)
    case Put(d, b) => if verify(d, b) then Insert(l, d, b, limits).list else l
  }

  /** Whether a request used its digest: a hit, or a store that was not refused. */
  predicate Uses(l: seq<Entry>, r: Request, limits: Limits, verify: (Digest, Bytes) -> bool) {
    match r
    case Get(d) => Lookup(l, d).Some?
    case Put(d, b) => verify(d, b) && Insert(l, d, b, limits).reply.Ok?
  }

  function Contents(requests: seq<Request>, limits: Limits, verify: (Digest, Bytes) -> bool): seq<Entry> {
    if requests == [] then []
    else Serve(Contents(requests[..|requests| - 1], limits, verify), requests[|requests| - 1], limits, verify)
  }

  function Strike(s: seq<Digest>, d: Digest): seq<Digest> {
    if s == [] then [] else if s[0] == d then Strike(s[1..], d) else [s[0]] + Strike(s[1..], d)
  }

  /** Every digest ever stored, in the order of its last use. */
  function LastUse(requests: seq<Request>, limits: Limits, verify: (Digest, Bytes) -> bool): seq<Digest> {
    if requests == [] then []
    else
      var before := requests[..|requests| - 1];
      var r := requests[|requests| - 1];
      var order := LastUse(before, limits, verify);
      if Uses(Contents(before, limits, verify), r, limits, verify) then Strike(order, r.digest) + [r.digest] else order
  }

  ghost predicate IsSuffix<T>(a: seq<T>, b: seq<T>) {
    |a| <= |b| && a == b[|b| - |a|..]
  }

  lemma {:induction false} StrikeJoins(a: seq<Digest>, b: seq<Digest>, d: Digest)
    ensures Strike(a + b, d) == Strike(a, d) + Strike(b, d)
    decreases |a|
  {
    if a == [] {
      assert a + b == b;
    } else {
      assert (a + b)[1..] == a[1..] + b;
      StrikeJoins(a[1..], b, d);
    }
  }

  lemma {:induction false} StrikeAbsent(a: seq<Digest>, d: Digest)
    requires d !in a
    ensures Strike(a, d) == a
    decreases |a|
  {
    if a != [] {
      StrikeAbsent(a[1..], d);
    }
  }

  lemma DigestsJoin(a: seq<Entry>, b: seq<Entry>)
    ensures Digests(a + b) == Digests(a) + Digests(b)
  {
  }

  lemma DigestsSplit(l: seq<Entry>, i: nat)
    requires i <= |l|
    ensures Digests(l) == Digests(l[..i]) + Digests(l[i..])
  {
  }

  lemma AbsentDigest(l: seq<Entry>, d: Digest)
    requires forall i :: 0 <= i < |l| ==> l[i].digest != d
    ensures d !in Digests(l)
  {
  }

  lemma StrikeMiddle(a: seq<Digest>, d: Digest, b: seq<Digest>)
    requires d !in a && d !in b
    ensures Strike(a + ([d] + b), d) == a + b
  {
    var tail := [d] + b;
    assert tail[1..] == b;
    assert Strike(tail, d) == Strike(b, d);
    hide Strike;
    StrikeAbsent(a, d);
    StrikeAbsent(b, d);
    StrikeJoins(a, tail, d);
  }

  lemma SplitDigests(l: seq<Entry>, i: nat)
    requires i < |l|
    ensures Digests(l) == Digests(l[..i]) + ([l[i].digest] + Digests(l[i + 1..]))
    ensures Digests(Moved(l, i)) == Digests(l[..i]) + Digests(l[i + 1..]) + [l[i].digest]
  {
  }

  /** Using an entry is striking its digest and putting it last. */
  lemma MovedDigests(l: seq<Entry>, i: nat)
    requires Unique(l) && i < |l|
    ensures Digests(Moved(l, i)) == Strike(Digests(l), l[i].digest) + [l[i].digest]
  {
    AbsentDigest(l[..i], l[i].digest);
    AbsentDigest(l[i + 1..], l[i].digest);
    hide Digests, Unique, Moved;
    SplitDigests(l, i);
    StrikeMiddle(Digests(l[..i]), l[i].digest, Digests(l[i + 1..]));
  }

  lemma UsedSuffix(l: seq<Entry>, order: seq<Digest>, i: nat)
    requires Unique(l) && i < |l| && IsSuffix(Digests(l), order)
    ensures IsSuffix(Digests(Moved(l, i)), Strike(order, l[i].digest) + [l[i].digest])
  {
    MovedDigests(l, i);
    var ds := Digests(l);
    var older := order[..|order| - |ds|];
    assert order == older + ds;
    StrikeJoins(older, ds, l[i].digest);
  }

  lemma SuffixOf(a: seq<Digest>, b: seq<Digest>, c: seq<Digest>, d: seq<Digest>)
    ensures IsSuffix(c + d, a + (b + c) + d)
  {
  }

  lemma StoredSuffix(l: seq<Entry>, order: seq<Digest>, k: nat, e: Entry)
    requires k <= |l| && !Has(l, e.digest) && IsSuffix(Digests(l), order)
    ensures IsSuffix(Digests(l[k..] + [e]), Strike(order, e.digest) + [e.digest])
  {
    var ds, d := Digests(l), e.digest;
    AbsentDigest(l, d);
    DigestsSplit(l, k);
    DigestsJoin(l[k..], [e]);
    assert Digests([e]) == [d];
    hide Digests, Has, Strike;
    var older := order[..|order| - |ds|];
    assert order == older + ds;
    StrikeJoins(older, ds, d);
    StrikeAbsent(ds, d);
    SuffixOf(Strike(older, d), Digests(l[..k]), Digests(l[k..]), [d]);
  }

  lemma UseServes(l: seq<Entry>, order: seq<Digest>, d: Digest, limits: Limits)
    requires Within(l, limits) && IsSuffix(Digests(l), order)
    ensures Within(Use(l, d), limits)
    ensures IsSuffix(Digests(Use(l, d)), if Lookup(l, d).Some? then Strike(order, d) + [d] else order)
    ensures Lookup(l, d).None? ==> !Has(l, d)
  {
    UseIs(l, d);
    UseKeeps(l, d, limits);
    if i :| 0 <= i < |l| && l[i].digest == d {
      LookupAt(l, i);
      UsedSuffix(l, order, i);
    } else {
      LookupAbsent(l, d);
    }
    hide IsSuffix, Strike, Within, Use, Digests;
  }

  lemma ServeKeeps(l: seq<Entry>, order: seq<Digest>, r: Request, limits: Limits, verify: (Digest, Bytes) -> bool)
    requires Within(l, limits) && IsSuffix(Digests(l), order)
    ensures Within(Serve(l, r, limits, verify), limits)
    ensures IsSuffix(Digests(Serve(l, r, limits, verify)),
                     if Uses(l, r, limits, verify) then Strike(order, r.digest) + [r.digest] else order)
  {
    UseServes(l, order, r.digest, limits);
    if r.Put? {
      InsertKeeps(l, r.digest, r.bytes, limits);
      if Lookup(l, r.digest).None? && |r.bytes| <= limits.maxBytes && limits.maxEntries > 0 {
        EvictsShortestPrefix(l, |r.bytes|, limits);
        StoredSuffix(l, order, |l| - |Evict(l, |r.bytes|, limits)|, Entry(r.digest, r.bytes));
      }
    }
    hide IsSuffix, Strike, Within, Use, Digests, Lookup, Evict, Has;
  }

  /**
    After any history of requests the budgets hold and what is cached is the young end of the
    last-use order of everything ever stored.
   */
  lemma {:induction false} ContentsAreLastUsed(requests: seq<Request>, limits: Limits, verify: (Digest, Bytes) -> bool)
    ensures var l := Contents(requests, limits, verify);
      Within(l, limits) && IsSuffix(Digests(l), LastUse(requests, limits, verify))
    decreases |requests|
  {
    if requests != [] {
      var before := requests[..|requests| - 1];
      ContentsAreLastUsed(before, limits, verify);
      ServeKeeps(Contents(before, limits, verify), LastUse(before, limits, verify), requests[|requests| - 1], limits,
        verify);
      hide Serve, Uses, IsSuffix, Within;
    }
  }

  /** Whatever a request leaves served is the youngest: a hit, and an upload that verifies and can be stored. */
  lemma ServedIsYoungest(requests: seq<Request>, limits: Limits, verify: (Digest, Bytes) -> bool, r: Request)
    ensures var before := Contents(requests, limits, verify); var l := Contents(requests + [r], limits, verify);
      && (r.Get? && Has(before, r.digest) ==> |l| == |before| && l[|l| - 1].digest == r.digest)
      && (r.Get? && !Has(before, r.digest) ==> l == before)
      && (r.Put? && !verify(r.digest, r.bytes) ==> l == before)
      && (r.Put? && verify(r.digest, r.bytes) && |r.bytes| <= limits.maxBytes && limits.maxEntries > 0
          && (forall i :: 0 <= i < |before| && before[i].digest == r.digest ==> before[i].bytes == r.bytes) ==>
            l != [] && l[|l| - 1] == Entry(r.digest, r.bytes))
  {
    assert (requests + [r])[..|requests|] == requests;
    var before := Contents(requests, limits, verify);
    ContentsAreLastUsed(requests, limits, verify);
    UseIs(before, r.digest);
    hide Contents, Evict;
    if i :| 0 <= i < |before| && before[i].digest == r.digest {
      LookupAt(before, i);
      hide Use, Total;
    } else {
      LookupAbsent(before, r.digest);
    }
  }

  // ------------------------------------------------------------ conflicts

  /** Everything cached verifies against its digest. */
  ghost predicate AllVerified(l: seq<Entry>, verify: (Digest, Bytes) -> bool) {
    forall i :: 0 <= i < |l| ==> verify(l[i].digest, l[i].bytes)
  }

  lemma UseVerifies(l: seq<Entry>, d: Digest, verify: (Digest, Bytes) -> bool)
    requires Unique(l) && AllVerified(l, verify)
    ensures AllVerified(Use(l, d), verify)
  {
    UseIs(l, d);
    hide Use, Lookup, Remove, Unique;
    if i :| 0 <= i < |l| && l[i].digest == d {
      assert Use(l, d) == Moved(l, i);
    }
  }

  lemma StoredVerifies(l: seq<Entry>, k: nat, e: Entry, verify: (Digest, Bytes) -> bool)
    requires AllVerified(l, verify) && k <= |l| && verify(e.digest, e.bytes)
    ensures AllVerified(l[k..] + [e], verify)
  {
  }

  lemma ServeVerifies(l: seq<Entry>, r: Request, limits: Limits, verify: (Digest, Bytes) -> bool)
    requires Within(l, limits) && AllVerified(l, verify)
    ensures AllVerified(Serve(l, r, limits, verify), verify)
  {
    UseVerifies(l, r.digest, verify);
    hide Use, Lookup, Evict, Fits, Within, AllVerified;
    if r.Put? && Lookup(l, r.digest).None? && |r.bytes| <= limits.maxBytes && limits.maxEntries > 0
       && verify(r.digest, r.bytes) {
      EvictsShortestPrefix(l, |r.bytes|, limits);
      StoredVerifies(l, |l| - |Evict(l, |r.bytes|, limits)|, Entry(r.digest, r.bytes), verify);
    }
  }

  lemma {:induction false} ContentsVerify(requests: seq<Request>, limits: Limits, verify: (Digest, Bytes) -> bool)
    ensures AllVerified(Contents(requests, limits, verify), verify)
    decreases |requests|
  {
    if requests != [] {
      var before := requests[..|requests| - 1];
      ContentsVerify(before, limits, verify);
      ContentsAreLastUsed(before, limits, verify);
      ServeVerifies(Contents(before, limits, verify), requests[|requests| - 1], limits, verify);
      hide Serve, AllVerified, Within;
    }
  }

  /** A verified upload is refused as a conflict only by a hash collision. */
  lemma ConflictIsCollision(requests: seq<Request>, limits: Limits, hash: Bytes -> Digest, d: Digest, b: Bytes)
    requires hash(b) == d
    requires Insert(Contents(requests, limits, (e, c) => hash(c) == e), d, b, limits).reply == Err(Conflict)
    ensures exists other :: other != b && hash(other) == hash(b)
  {
    var verify := (e: Digest, c: Bytes) => hash(c) == e;
    var l := Contents(requests, limits, verify);
    ContentsAreLastUsed(requests, limits, verify);
    ContentsVerify(requests, limits, verify);
    if i :| 0 <= i < |l| && l[i].digest == d {
      LookupAt(l, i);
      assert l[i].bytes != b && hash(l[i].bytes) == d;
    } else {
      LookupAbsent(l, d);
    }
  }

  // ------------------------------------------------------------ the store as written

  /** The map holds exactly the list's entries. */
  ghost predicate Backs(entries: map<Digest, Bytes>, l: seq<Entry>) {
    && (forall e :: e in l ==> e.digest in entries && entries[e.digest] == e.bytes)
    && (forall d :: d in entries ==> Entry(d, entries[d]) in l)
  }

  ghost predicate Represents(entries: map<Digest, Bytes>, recency: seq<Digest>, l: seq<Entry>) {
    recency == Digests(l) && Unique(l) && Backs(entries, l)
  }

  lemma BacksTail(entries: map<Digest, Bytes>, l: seq<Entry>)
    requires Unique(l) && Backs(entries, l) && l != []
    ensures Unique(l[1..]) && Backs(entries - {l[0].digest}, l[1..])
    ensures l[0].digest in entries && entries[l[0].digest] == l[0].bytes
  {
  }

  lemma {:induction false} EntriesAreCounted(entries: map<Digest, Bytes>, l: seq<Entry>)
    requires Unique(l) && Backs(entries, l)
    ensures |entries| == |l|
    decreases |l|
  {
    if l == [] {
      assert entries.Keys == {};
    } else {
      BacksTail(entries, l);
      var rest := entries - {l[0].digest};
      assert l[0] in l;
      assert rest.Keys == entries.Keys - {l[0].digest};
      assert |rest| == |rest.Keys| && |entries| == |entries.Keys|;
      EntriesAreCounted(rest, l[1..]);
    }
  }

  lemma LookupBacked(entries: map<Digest, Bytes>, l: seq<Entry>, d: Digest)
    requires Unique(l) && Backs(entries, l)
    ensures Lookup(l, d) == if d in entries then Some(entries[d]) else None
    ensures d in entries <==> Has(l, d)
  {
    if d in entries {
      var i :| 0 <= i < |l| && l[i] == Entry(d, entries[d]);
      LookupAt(l, i);
    } else {
      assert forall i :: 0 <= i < |l| ==> l[i] in l;
      LookupAbsent(l, d);
    }
  }

  lemma MovedBacks(entries: map<Digest, Bytes>, l: seq<Entry>, i: nat)
    requires Backs(entries, l) && i < |l|
    ensures Backs(entries, Moved(l, i))
  {
  }

  lemma MovedRecency(l: seq<Entry>, i: nat)
    requires i < |l| && Unique(l)
    ensures var r := Digests(l);
      r[i] == l[i].digest && r[i] !in r[..i] && Digests(Moved(l, i)) == r[..i] + r[i + 1..] + [r[i]]
  {
  }

  lemma AddBacks(entries: map<Digest, Bytes>, l: seq<Entry>, e: Entry)
    requires Unique(l) && Backs(entries, l) && e.digest !in entries
    ensures Unique(l + [e]) && Backs(entries[e.digest := e.bytes], l + [e]) && e.digest !in Digests(l)
    ensures Digests(l + [e]) == Digests(l) + [e.digest]
  {
  }

  lemma Tail(l: seq<Entry>)
    requires l != []
    ensures Digests(l) != [] && Digests(l)[0] == l[0].digest && Digests(l[1..]) == Digests(l)[1..]
    ensures Total(l) == |l[0].bytes| + Total(l[1..])
  {
  }

  lemma DigestsLength(l: seq<Entry>)
    ensures |Digests(l)| == |l|
  {
  }

  /**
    The newcomer is stored behind what is left when the oldest `n` have gone: with it both budgets hold,
    and with fewer gone they would not.
   */
  ghost predicate StoresAfter(before: seq<Entry>, after: seq<Entry>, n: nat, e: Entry, limits: Limits) {
    && n <= |before| && after == before[n..] + [e]
    && Total(before[n..]) + |e.bytes| <= limits.maxBytes && |before| - n + 1 <= limits.maxEntries
    && forall k :: 0 <= k < n ==>
         Total(before[k..]) + |e.bytes| > limits.maxBytes || |before| - k + 1 > limits.maxEntries
  }

  lemma EvictedStores(l: seq<Entry>, e: Entry, limits: Limits)
    requires |e.bytes| <= limits.maxBytes && limits.maxEntries > 0
    ensures var kept := Evict(l, |e.bytes|, limits);
      |kept| <= |l| && StoresAfter(l, kept + [e], |l| - |kept|, e, limits)
  {
    EvictsShortestPrefix(l, |e.bytes|, limits);
    hide Evict, Total;
    var kept := Evict(l, |e.bytes|, limits);
    forall k | 0 <= k < |l| - |kept|
      ensures Total(l[k..]) + |e.bytes| > limits.maxBytes || |l| - k + 1 > limits.maxEntries
    {
      assert !Fits(l[k..], |e.bytes|, limits);
    }
  }

  class Store {
    var entries: map<Digest, Bytes>
    var recency: seq<Digest>
    var bytes: nat
    const limits: Limits
    ghost var list: seq<Entry>   // the reference

    ghost predicate Valid()
      reads this
    {
      Represents(entries, recency, list) && Within(list, limits) && bytes == Total(list)
    }

    constructor (limits: Limits)
      ensures Valid() && list == [] && this.limits == limits
    {
      entries, recency, bytes, list := map[], [], 0, [];
      this.limits := limits;
    }

    /** The position of a digest, or the length if it is absent. */
    method Position(d: Digest) returns (i: nat)
      ensures i <= |recency| && d !in recency[..i] && (i < |recency| ==> recency[i] == d)
    {
      i := 0;
      while i < |recency| && recency[i] != d
        invariant i <= |recency| && d !in recency[..i]
      {
        i := i + 1;
      }
    }

    method Touch(d: Digest)
      modifies `recency
      ensures d !in old(recency) ==> recency == old(recency) + [d]
      ensures forall i :: 0 <= i < |old(recency)| && old(recency)[i] == d && d !in old(recency)[..i] ==>
        recency == old(recency)[..i] + old(recency)[i + 1..] + [d]
    {
      var i := Position(d);
      assert forall j :: i < j < |recency| ==> recency[..j][i] == d;
      if i < |recency| {
        assert recency[i] in recency;
        recency := recency[..i] + recency[i + 1..];
      }
      recency := recency + [d];
    }

    method Get(d: Digest) returns (r: Option<Bytes>)
      requires Valid()
      modifies `recency, `list
      ensures Valid() && r == Lookup(old(list), d) && list == Use(old(list), d)
      ensures r == if d in entries then Some(entries[d]) else None
      ensures d !in entries ==> list == old(list)
      ensures d in entries ==>
        exists i :: 0 <= i < |old(list)| && old(list)[i].digest == d && list == Moved(old(list), i)
    {
      hide Backs, Within, Total, Unique, Digests;
      LookupBacked(entries, list, d);
      UseIs(list, d);
      if d !in entries {
        return None;
      }
      r := Some(entries[d]);
      assert exists i :: 0 <= i < |list| && list[i].digest == d;
      TouchPresent(d);
    }

    /** A use of something cached, on both representations. */
    method TouchPresent(d: Digest)
      requires Valid() && d in entries
      modifies `recency, `list
      ensures Valid() && list == Use(old(list), d)
    {
      hide Backs, Within, Total, Unique, Digests, Use, Moved;
      LookupBacked(entries, list, d);
      ghost var i :| 0 <= i < |list| && list[i].digest == d;
      UseIs(list, d);
      UseKeeps(list, d, limits);
      MovedTotal(list, i);
      MovedUnique(list, i);
      MovedBacks(entries, list, i);
      MovedRecency(list, i);
      DigestsLength(list);
      assert recency[i] == d && d !in recency[..i];
      Touch(d);
      list := Moved(list, i);
    }

    /** One turn of the eviction loop. */
    method DropOldest()
      requires Valid() && list != []
      modifies `entries, `recency, `bytes, `list
      ensures Valid() && list == old(list)[1..] && entries.Keys <= old(entries).Keys
    {
      hide Backs, Within, Unique, Digests, Total;
      BacksTail(entries, list);
      SuffixWithin(list, 1, limits);
      Tail(list);
      var oldest := recency[0];
      recency := recency[1..];
      bytes := bytes - |entries[oldest]|;
      entries := entries - {oldest};
      list := list[1..];
    }

    /** Oldest entries go until the newcomer fits; the deque never runs out first. */
    method MakeRoom(size: nat) returns (evictions: nat)
      requires Valid() && size <= limits.maxBytes && limits.maxEntries > 0
      modifies `entries, `recency, `bytes, `list
      ensures Valid() && list == Evict(old(list), size, limits) && Fits(list, size, limits)
      ensures evictions == |old(list)| - |list| && entries.Keys <= old(entries).Keys
    {
      hide Backs, Within, Unique, Digests;
      evictions := 0;
      EntriesAreCounted(entries, list);
      while bytes + size > limits.maxBytes || |entries| >= limits.maxEntries
        invariant Valid() && |entries| == |list| && evictions == |old(list)| - |list|
          && entries.Keys <= old(entries).Keys
        invariant Evict(list, size, limits) == Evict(old(list), size, limits)
        decreases |list|
      {
        assert recency != [] by { DigestsLength(list); }
        DropOldest();
        evictions := evictions + 1;
        EntriesAreCounted(entries, list);
      }
    }

    /** Refines the reference; the internal error is unreachable. */
    method Add(d: Digest, b: Bytes) returns (r: Result<nat, Refusal>)
      requires Valid()
      modifies `entries, `recency, `bytes, `list
      ensures Valid()
      ensures var s := Insert(old(list), d, b, limits); list == s.list && r == s.reply
      ensures r == Err(Conflict) <==> d in old(entries) && old(entries)[d] != b
      ensures r == Err(TooLarge) <==> d !in old(entries) && (|b| > limits.maxBytes || limits.maxEntries == 0)
      ensures r.Err? ==> r != Err(Internal) && list == old(list) && entries == old(entries)
      ensures r.Ok? && d !in old(entries) ==> StoresAfter(old(list), list, r.value, Entry(d, b), limits)
      ensures r.Ok? && d in old(entries) ==>
        r.value == 0 && exists i :: 0 <= i < |old(list)| && old(list)[i].digest == d && list == Moved(old(list), i)
    {
      hide Backs, Within, Unique, Digests, Total, Lookup, Use, Evict;
      LookupBacked(entries, list, d);
      UseIs(list, d);
      InsertKeeps(list, d, b, limits);
      if d in entries {
        if entries[d] != b {
          return Err(Conflict);
        }
        assert exists i :: 0 <= i < |list| && list[i].digest == d;
        TouchPresent(d);
        return Ok(0);
      }
      if |b| > limits.maxBytes || limits.maxEntries == 0 {
        return Err(TooLarge);
      }
      EvictedStores(list, Entry(d, b), limits);
      hide StoresAfter;
      var evictions := MakeRoom(|b|);
      AddBacks(entries, list, Entry(d, b));
      TotalJoins(list, [Entry(d, b)]);
      OneTotal(Entry(d, b));
      bytes := bytes + |b|;
      entries := entries[d := b];
      Touch(d);
      list := list + [Entry(d, b)];
      return Ok(evictions);
    }
  }
}
