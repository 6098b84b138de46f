/**
  The persisted ResourceInventory: which children an Application owns, under which
  UID, and which of them are to be released.  The list operations are methods on the
  list the controllers mutate; the protocol model reads them as operations on a map.
 */
module Inventory {
  import opened Basics

  /** Kubernetes UIDs; zero stands for the empty string, a creation intent. */
  type Uid = nat
  const NO_UID: Uid := 0
  const MAX_ENTRIES: nat := 128

  datatype Kind = PostgresDatabase | RedisDatabase | RedisCredential | PostgresCredential | PostgresMigrationSet

  datatype Disposition = Unset | Active | Release

  /** Names hashed from the owner identity are injective in the pair they are hashed from. */
  datatype Name = Hashed(kind: Kind, logicalName: string) | Plain(text: string)

  /** The remaining binding fields: database, role and Secret, derived or foreign. */
  datatype Fields = Derived(kind: Kind, logicalName: string) | Foreign(text: string)

  datatype Key = Key(kind: Kind, namespace: string, name: Name)

  datatype Binding = Binding(
    key: Key, uid: Uid, logicalName: string, retained: bool, fields: Fields, disposition: Disposition)

  datatype Spec = Spec(releasing: bool, resources: map<Key, Binding>)

  datatype PersistError = UidDiffers | BindingDiffers | TooManyEntries

  predicate Settled(b: Binding) {
    b.retained || b.disposition.Release?
  }

  ghost predicate WellFormed(spec: Spec) {
    && (forall k :: k in spec.resources ==> spec.resources[k].key == k)
    && |spec.resources| <= MAX_ENTRIES
    && (spec.releasing ==> forall k :: k in spec.resources ==> Settled(spec.resources[k]))
  }

  predicate SameBinding(a: Binding, b: Binding) {
    a.key == b.key && a.logicalName == b.logicalName && a.retained == b.retained && a.fields == b.fields
  }

  predicate Obligation(b: Binding) {
    !b.retained
  }

  predicate HasObligations(spec: Spec) {
    exists k :: k in spec.resources && Obligation(spec.resources[k])
  }

  predicate Pending(spec: Spec) {
    exists k :: k in spec.resources && !spec.resources[k].retained && spec.resources[k].disposition.Release?
  }

  function Defaulted(b: Binding): Binding {
    if b.disposition.Unset? then b.(disposition := Active) else b
  }

  function Released(b: Binding): Binding {
    if b.retained then b else b.(disposition := Release)
  }

  /** persistInventoryEntry on the key-to-entry view. */
  function Persist(spec: Spec, given: Binding): Result<Spec, PersistError> {
    var entry := Defaulted(given);
    if entry.key in spec.resources then
      var previous := spec.resources[entry.key];
      if previous.uid != NO_UID && previous.uid != entry.uid then Err(UidDiffers)
      else if !SameBinding(previous, entry) then Err(BindingDiffers)
      else Ok(spec.(resources := spec.resources[entry.key :=
        if previous.disposition.Release? then entry.(disposition := Release) else entry]))
    else if |spec.resources| >= MAX_ENTRIES then Err(TooManyEntries)
    else Ok(spec.(resources := spec.resources[entry.key :=
      if spec.releasing then Released(entry) else entry]))
  }

  function PersistAll(spec: Spec, entries: seq<Binding>): Result<Spec, PersistError>
    decreases |entries|
  {
    if entries == [] then Ok(spec)
    else match Persist(spec, entries[0])
      case Err(e) => Err(e)
      case Ok(next) => PersistAll(next, entries[1..])
  }

  function ReleaseAll(spec: Spec): Spec {
    Spec(true, map k | k in spec.resources :: Released(spec.resources[k]))
  }

  predicate Wanted(b: Binding, wanted: set<(Kind, string)>) {
    b.retained || (b.key.kind, b.logicalName) in wanted
  }

  function MarkUnwanted(spec: Spec, wanted: set<(Kind, string)>): Spec {
    spec.(resources := map k | k in spec.resources ::
      if Wanted(spec.resources[k], wanted) then spec.resources[k] else Released(spec.resources[k]))
  }

  /**
    What no update of an entry may undo: a recorded UID, a release, the retained
    flag and the immutable binding.
   */
  ghost predicate EntryEvolves(before: Binding, after: Binding) {
    && SameBinding(before, after)
    && (before.uid != NO_UID ==> after.uid == before.uid)
    && (before.disposition.Release? ==> after.disposition.Release?)
  }

  /** Every entry survives, and evolves. */
  ghost predicate Evolves(before: Spec, after: Spec) {
    && (before.releasing ==> after.releasing)
    && forall k :: k in before.resources ==>
         k in after.resources && EntryEvolves(before.resources[k], after.resources[k])
  }

  lemma EvolvesTransitive(a: Spec, b: Spec, c: Spec)
    requires Evolves(a, b) && Evolves(b, c)
    ensures Evolves(a, c)
  {
  }

  /** An entry with its disposition decided one way or the other. */
  function Dated(b: Binding, release: bool): Binding {
    b.(disposition := if release then Release else Active)
  }

  /** A successful persist changes one entry, which evolves or is new. */
  lemma PersistIsPut(spec: Spec, given: Binding)
    requires WellFormed(spec) && Persist(spec, given).Ok?
    ensures
      var next := Persist(spec, given).value;
      && given.key in next.resources
      && (var entry := next.resources[given.key];
          && next == spec.(resources := spec.resources[given.key := entry])
          && entry.uid == given.uid && SameBinding(entry, given)
          && (spec.releasing ==> Settled(entry))
          && (given.key in spec.resources ==>
                && EntryEvolves(spec.resources[given.key], entry)
                && entry == Dated(given, spec.resources[given.key].disposition.Release? || given.disposition.Release?))
          && (given.key !in spec.resources ==>
                && |spec.resources| < MAX_ENTRIES
                && entry == Dated(given, given.disposition.Release? || (spec.releasing && !given.retained))))
  {
  }

  /** Exactly when a persist is refused, and why. */
  lemma PersistRefusesIff(spec: Spec, given: Binding)
    requires WellFormed(spec)
    ensures Persist(spec, given) == Err(UidDiffers) <==>
      && given.key in spec.resources && spec.resources[given.key].uid != NO_UID
      && spec.resources[given.key].uid != given.uid
    ensures Persist(spec, given) == Err(BindingDiffers) <==>
      && given.key in spec.resources
      && (spec.resources[given.key].uid == NO_UID || spec.resources[given.key].uid == given.uid)
      && var previous := spec.resources[given.key];
         previous.logicalName != given.logicalName || previous.retained != given.retained
         || previous.fields != given.fields
    ensures Persist(spec, given) == Err(TooManyEntries) <==>
      given.key !in spec.resources && |spec.resources| >= 128
  {
  }

  lemma PutKeepsWellFormed(spec: Spec, entry: Binding)
    requires WellFormed(spec) && (spec.releasing ==> Settled(entry))
    requires entry.key in spec.resources || |spec.resources| < MAX_ENTRIES
    requires entry.key in spec.resources ==> EntryEvolves(spec.resources[entry.key], entry)
    ensures var next := spec.(resources := spec.resources[entry.key := entry]);
      WellFormed(next) && Evolves(spec, next)
  {
  }

  lemma PersistEvolves(spec: Spec, given: Binding)
    requires WellFormed(spec) && Persist(spec, given).Ok?
    ensures
      var next := Persist(spec, given).value;
      && WellFormed(next) && Evolves(spec, next)
      && next.releasing == spec.releasing
      && next.resources.Keys == spec.resources.Keys + {given.key}
      && next.resources[given.key].uid == given.uid
      && SameBinding(next.resources[given.key], given)
      && (forall k :: k in spec.resources && k != given.key ==> next.resources[k] == spec.resources[k])
  {
    hide Persist;
    PersistIsPut(spec, given);
    PutKeepsWellFormed(spec, Persist(spec, given).value.resources[given.key]);
  }

  lemma {:induction false} PersistAllKeeps(spec: Spec, entries: seq<Binding>)
    requires WellFormed(spec) && PersistAll(spec, entries).Ok?
    ensures var next := PersistAll(spec, entries).value;
      WellFormed(next) && Evolves(spec, next) && next.releasing == spec.releasing
    decreases |entries|
  {
    if entries != [] {
      PersistEvolves(spec, entries[0]);
      var mid := Persist(spec, entries[0]).value;
      PersistAllKeeps(mid, entries[1..]);
      EvolvesTransitive(spec, mid, PersistAll(mid, entries[1..]).value);
    }
  }

  ghost predicate DistinctKeys(entries: seq<Binding>) {
    forall i, j :: 0 <= i < j < |entries| ==> entries[i].key != entries[j].key
  }

  /** Each listed entry is recorded under its UID. */
  ghost predicate AllPersisted(entries: seq<Binding>, resources: map<Key, Binding>) {
    forall i :: 0 <= i < |entries| ==>
      && entries[i].key in resources
      && resources[entries[i].key].uid == entries[i].uid
      && SameBinding(resources[entries[i].key], entries[i])
  }

  /** Whatever is not listed is as it was. */
  ghost predicate OnlyListed(before: map<Key, Binding>, entries: seq<Binding>, after: map<Key, Binding>) {
    forall k :: k in after && (forall i :: 0 <= i < |entries| ==> entries[i].key != k) ==>
      k in before && after[k] == before[k]
  }

  lemma PersistedCons(entries: seq<Binding>, mid: map<Key, Binding>, after: map<Key, Binding>)
    requires entries != [] && DistinctKeys(entries) && AllPersisted(entries[1..], after)
      && OnlyListed(mid, entries[1..], after)
    requires AllPersisted(entries[..1], mid) && mid.Keys <= after.Keys
    ensures AllPersisted(entries, after)
  {
    var rest := entries[1..];
    forall i | 0 <= i < |entries|
      ensures entries[i].key in after && after[entries[i].key].uid == entries[i].uid
        && SameBinding(after[entries[i].key], entries[i])
    {
      if i == 0 {
        assert entries[..1][0] == entries[0];
        assert forall j :: 0 <= j < |rest| ==> rest[j] == entries[j + 1];
      } else {
        assert rest[i - 1] == entries[i];
      }
    }
  }

  lemma OnlyListedCons(before: map<Key, Binding>, entries: seq<Binding>, mid: map<Key, Binding>,
      after: map<Key, Binding>)
    requires entries != [] && OnlyListed(before, entries[..1], mid) && OnlyListed(mid, entries[1..], after)
    ensures OnlyListed(before, entries, after)
  {
    forall k | k in after && (forall i :: 0 <= i < |entries| ==> entries[i].key != k)
      ensures k in before && after[k] == before[k]
    {
      assert forall i :: 0 <= i < |entries[1..]| ==> entries[1..][i] == entries[i + 1];
      assert entries[..1][0] == entries[0];
    }
  }

  lemma PutHead(m: map<Key, Binding>, b: Binding, entry: Binding)
    requires entry.uid == b.uid && SameBinding(entry, b)
    ensures AllPersisted([b], m[b.key := entry]) && OnlyListed(m, [b], m[b.key := entry])
  {
    assert [b][0] == b;
  }

  lemma PersistHead(spec: Spec, b: Binding)
    requires WellFormed(spec) && Persist(spec, b).Ok?
    ensures var mid := Persist(spec, b).value;
      WellFormed(mid) && AllPersisted([b], mid.resources) && OnlyListed(spec.resources, [b], mid.resources)
  {
    hide Persist, WellFormed, Evolves, AllPersisted, OnlyListed;
    PersistIsPut(spec, b);
    PersistEvolves(spec, b);
    PutHead(spec.resources, b, Persist(spec, b).value.resources[b.key]);
  }

  lemma EvolvedKeys(a: Spec, b: Spec)
    requires Evolves(a, b)
    ensures a.resources.Keys <= b.resources.Keys
  {
  }

  lemma TailDistinct(entries: seq<Binding>)
    requires entries != [] && DistinctKeys(entries)
    ensures DistinctKeys(entries[1..])
  {
  }

  /** A list of entries with distinct keys is persisted whole. */
  lemma {:induction false} PersistAllEvolves(spec: Spec, entries: seq<Binding>)
    requires WellFormed(spec) && PersistAll(spec, entries).Ok? && DistinctKeys(entries)
    ensures
      var next := PersistAll(spec, entries).value;
      && WellFormed(next) && Evolves(spec, next) && next.releasing == spec.releasing
      && AllPersisted(entries, next.resources) && OnlyListed(spec.resources, entries, next.resources)
    decreases |entries|
  {
    PersistAllKeeps(spec, entries);
    if entries != [] {
      hide AllPersisted, OnlyListed, DistinctKeys, Evolves, WellFormed, Persist;
      assert entries[..1] == [entries[0]];
      PersistHead(spec, entries[0]);
      var mid := Persist(spec, entries[0]).value;
      TailDistinct(entries);
      PersistAllEvolves(mid, entries[1..]);
      var next := PersistAll(mid, entries[1..]).value;
      EvolvedKeys(mid, next);
      PersistedCons(entries, mid.resources, next.resources);
      OnlyListedCons(spec.resources, entries, mid.resources, next.resources);
    }
  }

  lemma MapSize<V>(m: map<Key, V>, n: map<Key, V>)
    requires m.Keys == n.Keys
    ensures |m| == |n|
  {
  }

  lemma MarkEvolves(spec: Spec, wanted: set<(Kind, string)>)
    requires WellFormed(spec)
    ensures var next := MarkUnwanted(spec, wanted);
      WellFormed(next) && Evolves(spec, next) && next.resources.Keys == spec.resources.Keys
  {
    MapSize(spec.resources, MarkUnwanted(spec, wanted).resources);
  }

  /** Marking releases exactly what is neither retained nor wanted, and changes nothing else. */
  lemma MarkReleasesExactly(spec: Spec, wanted: set<(Kind, string)>, k: Key)
    requires WellFormed(spec) && k in spec.resources
    ensures var next, b := MarkUnwanted(spec, wanted), spec.resources[k];
      && next.releasing == spec.releasing && k in next.resources
      && next.resources[k] ==
           if !b.retained && (k.kind, b.logicalName) !in wanted then b.(disposition := Release) else b
  {
  }

  lemma ReleaseEvolves(spec: Spec)
    requires WellFormed(spec)
    ensures var next := ReleaseAll(spec);
      && WellFormed(next) && Evolves(spec, next) && next.releasing && next.resources.Keys == spec.resources.Keys
      && forall k :: k in spec.resources ==>
           next.resources[k] ==
             if spec.resources[k].retained then spec.resources[k] else spec.resources[k].(disposition := Release)
  {
    MapSize(spec.resources, ReleaseAll(spec).resources);
  }

  // ---------------------------------------------------------------- the mutable list

  ghost function Entries(s: seq<Binding>): map<Key, Binding> {
    if s == [] then map[]
    else var n := |s| - 1; Entries(s[..n])[s[n].key := s[n]]
  }

  /** The map holds exactly the listed entries, under their keys. */
  ghost predicate HoldsExactly(m: map<Key, Binding>, s: seq<Binding>) {
    && |m| == |s|
    && (forall i :: 0 <= i < |s| ==> s[i].key in m && m[s[i].key] == s[i])
    && (forall k :: k in m ==> m[k] in s && m[k].key == k)
  }

  lemma PutSize(m: map<Key, Binding>, k: Key, b: Binding)
    requires k !in m
    ensures |m[k := b]| == |m| + 1
  {
  }

  /** One more entry, with a key of its own, extends a map that holds exactly the entries before it. */
  lemma EntriesExtend(s: seq<Binding>, m: map<Key, Binding>)
    requires s != [] && DistinctKeys(s) && HoldsExactly(m, s[..|s| - 1])
    ensures HoldsExactly(m[s[|s| - 1].key := s[|s| - 1]], s)
  {
    var t, b := s[..|s| - 1], s[|s| - 1];
    var next := m[b.key := b];
    assert b.key !in m;
    PutSize(m, b.key, b);
    forall i | 0 <= i < |s|
      ensures s[i].key in next && next[s[i].key] == s[i]
    {
      if i < |t| {
        assert s[i] == t[i];
      }
    }
    assert s == t + [b];
  }

  lemma {:induction false} EntriesAre(s: seq<Binding>)
    requires DistinctKeys(s)
    ensures HoldsExactly(Entries(s), s)
  {
    if s != [] {
      var n := |s| - 1;
      assert DistinctKeys(s[..n]);
      hide HoldsExactly, DistinctKeys;
      EntriesAre(s[..n]);
      EntriesExtend(s, Entries(s[..n]));
    }
  }

  /** The view of a list is the only map that holds exactly its entries under their keys. */
  lemma EntriesUnique(s: seq<Binding>, m: map<Key, Binding>)
    requires DistinctKeys(s)
    requires forall i :: 0 <= i < |s| ==> s[i].key in m && m[s[i].key] == s[i]
    requires forall k :: k in m ==> m[k] in s && m[k].key == k
    ensures Entries(s) == m
  {
    EntriesAre(s);
    forall k | k in m
      ensures k in Entries(s) && Entries(s)[k] == m[k]
    {
      var i :| 0 <= i < |s| && s[i] == m[k];
    }
    forall k | k in Entries(s)
      ensures k in m
    {
      var i :| 0 <= i < |s| && s[i] == Entries(s)[k];
    }
  }

  lemma DropKeepsWellFormed(spec: Spec, key: Key)
    requires WellFormed(spec)
    ensures WellFormed(spec.(resources := spec.resources - {key}))
  {
  }

  /** remaining is s without the entry under key. */
  ghost predicate Kept(s: seq<Binding>, remaining: seq<Binding>, key: Key) {
    && DistinctKeys(remaining)
    && (forall b :: b in remaining ==> b in s && b.key != key)
    && (forall b :: b in s && b.key != key ==> b in remaining)
  }

  lemma KeptExtends(s: seq<Binding>, remaining: seq<Binding>, key: Key, b: Binding)
    requires Kept(s, remaining, key) && DistinctKeys(s + [b])
    ensures Kept(s + [b], if b.key != key then remaining + [b] else remaining, key)
  {
    forall c | c in s
      ensures c.key != b.key
    {
      var i :| 0 <= i < |s| && s[i] == c;
      assert (s + [b])[i].key != (s + [b])[|s|].key;
    }
  }

  lemma KeptEntries(s: seq<Binding>, remaining: seq<Binding>, key: Key)
    requires DistinctKeys(s) && Kept(s, remaining, key)
    ensures Entries(remaining) == Entries(s) - {key}
  {
    EntriesAre(s);
    hide Entries;
    forall i | 0 <= i < |remaining|
      ensures remaining[i].key in Entries(s) && Entries(s)[remaining[i].key] == remaining[i]
    {
      assert remaining[i] in remaining;
      var j :| 0 <= j < |s| && s[j] == remaining[i];
    }
    EntriesUnique(remaining, Entries(s) - {key});
  }

  lemma ReplaceAt(s: seq<Binding>, i: nat, entry: Binding)
    requires DistinctKeys(s) && i < |s| && s[i].key == entry.key
    ensures DistinctKeys(s[i := entry]) && Entries(s[i := entry]) == Entries(s)[entry.key := entry]
  {
    EntriesAre(s);
    var t := s[i := entry];
    var m := Entries(s)[entry.key := entry];
    forall k | k in m
      ensures m[k] in t && m[k].key == k
    {
      if k == entry.key {
        assert t[i] == m[k];
      } else {
        var j :| 0 <= j < |s| && s[j] == m[k];
        assert t[j] == m[k];
      }
    }
    EntriesUnique(t, m);
  }

  /** What persisting does when the entry at position i already has the key. */
  lemma PersistFound(spec: Spec, s: seq<Binding>, i: nat, given: Binding)
    requires WellFormed(spec) && DistinctKeys(s) && spec.resources == Entries(s)
    requires i < |s| && s[i].key == given.key
    ensures
      var previous, entry, r := s[i], Defaulted(given), Persist(spec, given);
      if previous.uid != NO_UID && previous.uid != entry.uid then r == Err(UidDiffers)
      else if !SameBinding(previous, entry) then r == Err(BindingDiffers)
      else
        var next := s[i := if previous.disposition.Release? then entry.(disposition := Release) else entry];
        DistinctKeys(next) && r == Ok(spec.(resources := Entries(next))) && WellFormed(r.value)
  {
    EntriesAre(s);
    assert spec.resources[given.key] == s[i];
    var r := Persist(spec, given);
    if r.Ok? {
      PersistEvolves(spec, given);
      ReplaceAt(s, i, r.value.resources[given.key]);
    }
  }

  lemma AppendOne(s: seq<Binding>, entry: Binding)
    requires DistinctKeys(s) && forall j :: 0 <= j < |s| ==> s[j].key != entry.key
    ensures DistinctKeys(s + [entry]) && Entries(s + [entry]) == Entries(s)[entry.key := entry]
    ensures entry.key !in Entries(s)
  {
  }

  /** What persisting does when no entry has the key. */
  lemma PersistMissing(spec: Spec, s: seq<Binding>, given: Binding)
    requires WellFormed(spec) && DistinctKeys(s) && spec.resources == Entries(s)
    requires forall j :: 0 <= j < |s| ==> s[j].key != given.key
    ensures
      var entry, r := Defaulted(given), Persist(spec, given);
      if |s| >= MAX_ENTRIES then r == Err(TooManyEntries)
      else
        var next := s + [if spec.releasing && !entry.retained then entry.(disposition := Release) else entry];
        DistinctKeys(next) && r == Ok(spec.(resources := Entries(next))) && WellFormed(r.value)
  {
    EntriesAre(s);
    AppendOne(s, Defaulted(given));
    var r := Persist(spec, given);
    if r.Ok? {
      PersistEvolves(spec, given);
      AppendOne(s, r.value.resources[given.key]);
    }
  }

  /** A list changed entry by entry, keys kept, has the view changed entry by entry. */
  lemma MapEntries(s: seq<Binding>, t: seq<Binding>, before: Spec, after: map<Key, Binding>)
    requires DistinctKeys(s) && before.resources == Entries(s)
    requires |t| == |s| && forall i :: 0 <= i < |s| ==> t[i].key == s[i].key
    requires after.Keys == before.resources.Keys
    requires forall i :: 0 <= i < |s| && s[i].key in before.resources && before.resources[s[i].key] == s[i] ==>
      after[s[i].key] == t[i]
    ensures DistinctKeys(t) && Entries(t) == after
  {
    EntriesAre(s);
    forall k | k in after
      ensures after[k] in t && after[k].key == k
    {
      var i :| 0 <= i < |s| && s[i] == before.resources[k];
      assert after[k] == t[i];
    }
    EntriesUnique(t, after);
  }

  class ResourceInventory {
    var releasing: bool
    var resources: seq<Binding>

    ghost predicate Valid()
      reads this
    {
      DistinctKeys(resources) && WellFormed(AsSpec())
    }

    ghost function AsSpec(): Spec
      reads this
      requires DistinctKeys(resources)
    {
      Spec(releasing, Entries(resources))
    }

    constructor ()
      ensures Valid() && AsSpec() == Spec(false, map[])
    {
      releasing, resources := false, [];
    }

    /** A failed persist leaves the list as it was; a successful one is Persist on the view. */
    method PersistEntry(given: Binding) returns (r: Result<(), PersistError>)
      requires Valid()
      modifies this
      ensures Valid()
      ensures Persist(old(AsSpec()), given).Err? ==>
        r == Err(Persist(old(AsSpec()), given).error) && resources == old(resources) && releasing == old(releasing)
      ensures Persist(old(AsSpec()), given).Ok? ==> r.Ok? && AsSpec() == Persist(old(AsSpec()), given).value
      // entries keep their position; a new one goes last
      ensures |old(resources)| <= |resources|
      ensures forall i :: 0 <= i < |old(resources)| ==> resources[i].key == old(resources)[i].key
    {
      hide Persist, WellFormed, Entries;
      var entry := if given.disposition.Unset? then given.(disposition := Active) else given;
      var i := 0;
      while i < |resources|
        invariant 0 <= i <= |resources|
        invariant forall j :: 0 <= j < i ==> resources[j].key != entry.key
        invariant releasing == old(releasing) && resources == old(resources)
      {
        var previous := resources[i];
        if previous.key == entry.key {
          PersistFound(AsSpec(), resources, i, given);
          if previous.uid != NO_UID && previous.uid != entry.uid {
            return Err(UidDiffers);
          }
          if !SameBinding(previous, entry) {
            return Err(BindingDiffers);
          }
          if previous.disposition.Release? {
            entry := entry.(disposition := Release);
          }
          resources := resources[i := entry];
          return Ok(());
        }
        i := i + 1;
      }
      PersistMissing(AsSpec(), resources, given);
      if |resources| >= MAX_ENTRIES {
        return Err(TooManyEntries);
      }
      if releasing && !entry.retained {
        entry := entry.(disposition := Release);
      }
      resources := resources + [entry];
      return Ok(());
    }

    method ReleaseEntries()
      requires Valid()
      modifies this
      ensures Valid() && AsSpec() == ReleaseAll(old(AsSpec()))
      ensures releasing && |resources| == |old(resources)|
      ensures forall i :: 0 <= i < |resources| ==>
        resources[i] ==
          if old(resources)[i].retained then old(resources)[i] else old(resources)[i].(disposition := Release)
    {
      releasing := true;
      var i := 0;
      while i < |resources|
        invariant releasing && |resources| == |old(resources)| && 0 <= i <= |resources|
        invariant forall j :: 0 <= j < i ==> resources[j] == Released(old(resources)[j])
        invariant forall j :: i <= j < |resources| ==> resources[j] == old(resources)[j]
      {
        if !resources[i].retained {
          resources := resources[i := resources[i].(disposition := Release)];
        }
        i := i + 1;
      }
      MapEntries(old(resources), resources, old(AsSpec()), ReleaseAll(old(AsSpec())).resources);
      ReleaseEvolves(old(AsSpec()));
    }

    /** The loop of reconcileResourceInventory that releases what the specification no longer wants. */
    method ReleaseUnwanted(wanted: set<(Kind, string)>)
      requires Valid()
      modifies this`resources
      ensures Valid() && AsSpec() == MarkUnwanted(old(AsSpec()), wanted)
      ensures |resources| == |old(resources)|
      ensures forall i :: 0 <= i < |resources| ==>
        resources[i] ==
          if !old(resources)[i].retained && (old(resources)[i].key.kind, old(resources)[i].logicalName) !in wanted
          then old(resources)[i].(disposition := Release) else old(resources)[i]
    {
      var i := 0;
      while i < |resources|
        invariant |resources| == |old(resources)| && 0 <= i <= |resources|
        invariant forall j :: 0 <= j < i ==>
          resources[j] == if Wanted(old(resources)[j], wanted) then old(resources)[j] else Released(old(resources)[j])
        invariant forall j :: i <= j < |resources| ==> resources[j] == old(resources)[j]
      {
        var entry := resources[i];
        if !entry.retained && (entry.key.kind, entry.logicalName) !in wanted {
          resources := resources[i := entry.(disposition := Release)];
        }
        i := i + 1;
      }
      MapEntries(old(resources), resources, old(AsSpec()), MarkUnwanted(old(AsSpec()), wanted).resources);
      MarkEvolves(old(AsSpec()), wanted);
    }

    /** The controller rebuilds the list without a finished entry. */
    method DropEntry(key: Key)
      requires Valid()
      modifies this`resources
      ensures Valid() && AsSpec() == old(AsSpec()).(resources := old(AsSpec()).resources - {key})
    {
      hide Entries, WellFormed;
      var remaining: seq<Binding> := [];
      var i := 0;
      while i < |resources|
        invariant 0 <= i <= |resources| && resources == old(resources)
        invariant Kept(resources[..i], remaining, key)
      {
        hide Kept;
        assert resources[..i + 1] == resources[..i] + [resources[i]];
        KeptExtends(resources[..i], remaining, key, resources[i]);
        if resources[i].key != key {
          remaining := remaining + [resources[i]];
        }
        i := i + 1;
      }
      assert resources[..i] == resources;
      KeptEntries(resources, remaining, key);
      DropKeepsWellFormed(AsSpec(), key);
      resources := remaining;
    }
  }

  lemma SubsetKeys(m: map<Key, Binding>, n: map<Key, Binding>)
    requires n.Keys <= m.Keys
    ensures |n| <= |m|
  {
    assert n.Keys + (m.Keys - n.Keys) == m.Keys;
    assert |m| == |m.Keys| && |n| == |n.Keys|;
    assert |n.Keys| + |m.Keys - n.Keys| == |m.Keys|;
  }
}
