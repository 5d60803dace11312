/** The two batch writers of `BatchProcessor` and the per-batch work of `processFile`.
    The database is a `Store` of id sets; what each storage call does on a given attempt is
    decided by an `Oracle`. `localeCompare` is an arbitrary order `le` on ids. */
module BatchWriter {
  import opened Common
  import opened Records
  import opened Retry
  import Transformer

  // ---------------------------------------------------------------------------
  // The store and the oracle

  /** The unique key of an upserted dependency; an agency's is the pair of its ids. */
  datatype DepKey =
    | DepFranchisor(franchisorId: string)
    | DepAgency(agencyId: string, franchisorId: string)
    | DepLocation(locationId: string)

  /** The rows the database holds, by unique key. */
  datatype Store = Store(deps: set<DepKey>, caregivers: set<Value>, carelogs: set<Value>)

  /** The lookups a writer makes: the existence lookups, with the records whose ids they list,
      and the `findUnique` of a dependency whose upsert failed. */
  datatype Query =
    | CaregiverIds(caregivers: seq<Caregiver>)
    | CarelogCaregiverIds(carelogs: seq<Carelog>)
    | CarelogIds(carelogs: seq<Carelog>)
    | DepLookup(key: DepKey)

  /** How the database answers on attempt `a`: whether the upsert of a key fails given the
      keys present, whether a lookup throws, and what `createMany` comes to for the submitted
      rows and `skipDuplicates` flag. */
  datatype Oracle = Oracle(
    upsertFails: (nat, DepKey, set<DepKey>) -> bool,
    queryError: (nat, Query) -> Option<StoreError>,
    createCaregivers: (nat, seq<Caregiver>, bool) -> AttemptOutcome,
    createCarelogs: (nat, seq<Carelog>, bool) -> AttemptOutcome)

  /** `createMany` never reports more rows than it was given. */
  ghost predicate Honest(o: Oracle) {
    (forall a, data, skip :: o.createCaregivers(a, data, skip).AttemptOk? ==>
      o.createCaregivers(a, data, skip).count <= |data|) &&
    (forall a, data, skip :: o.createCarelogs(a, data, skip).AttemptOk? ==>
      o.createCarelogs(a, data, skip).count <= |data|)
  }

  /** The parts of `BatchConfig` the writers read. */
  datatype WriterConfig = WriterConfig(retry: Option<RetryConfig>, skipDuplicates: bool)

  // ---------------------------------------------------------------------------
  // Dependency upserts

  function FranchisorDep(f: Franchisor): DepKey { DepFranchisor(f.franchisorId) }
  function AgencyDep(a: Agency): DepKey { DepAgency(a.agencyId, a.franchisorId) }
  function LocationDep(l: Location): DepKey { DepLocation(l.locationId) }

  function FranchisorDeps(fs: seq<Franchisor>): seq<DepKey> {
    seq(|fs|, i requires 0 <= i < |fs| => FranchisorDep(fs[i]))
  }

  function AgencyDeps(ags: seq<Agency>): seq<DepKey> {
    seq(|ags|, i requires 0 <= i < |ags| => AgencyDep(ags[i]))
  }

  function LocationDeps(ls: seq<Location>): seq<DepKey> {
    seq(|ls|, i requires 0 <= i < |ls| => LocationDep(ls[i]))
  }

  /** Every franchisor, then every agency, then every location. */
  function DepKeys(fs: seq<Franchisor>, ags: seq<Agency>, ls: seq<Location>): seq<DepKey> {
    FranchisorDeps(fs) + AgencyDeps(ags) + LocationDeps(ls)
  }

  /** Where a run of upserts ends: the dependencies then present, and the error of a
      `findUnique` that threw, which ends the attempt. */
  datatype Upserts = Upserts(deps: set<DepKey>, error: Option<StoreError>)

  /** Upserting `keys` in order on attempt `a`: a key is added when its upsert succeeds
      (`update: {}` leaves an existing row alone); when it fails, the `findUnique` that
      follows either answers, and the loop goes on, or throws, and nothing after it runs. */
  function UpsertAll(o: Oracle, a: nat, deps: set<DepKey>, keys: seq<DepKey>): Upserts
    decreases |keys|
  {
    if keys == [] then Upserts(deps, None)
    else
      var before := UpsertAll(o, a, deps, keys[..|keys| - 1]);
      var k := keys[|keys| - 1];
      if before.error.Some? then before
      else if !o.upsertFails(a, k, before.deps) then Upserts(before.deps + {k}, None)
      else Upserts(before.deps, o.queryError(a, DepLookup(k)))
  }

  /** The dependencies after the first `n` attempts have each run their upserts of `keys`. */
  function DepsAfter(o: Oracle, deps: set<DepKey>, keys: seq<DepKey>, n: nat): set<DepKey> {
    if n == 0 then deps else UpsertAll(o, n, DepsAfter(o, deps, keys, n - 1), keys).deps
  }

  /** The upserts of attempt `a`, on the dependencies the earlier attempts left. */
  function UpsertsAt(o: Oracle, deps: set<DepKey>, keys: seq<DepKey>, a: nat): Upserts {
    UpsertAll(o, a, DepsAfter(o, deps, keys, if a == 0 then 0 else a - 1), keys)
  }

  lemma DepsAfterNext(o: Oracle, deps: set<DepKey>, keys: seq<DepKey>, n: nat)
    ensures DepsAfter(o, deps, keys, n + 1) == UpsertAll(o, n + 1, DepsAfter(o, deps, keys, n), keys).deps
    ensures UpsertsAt(o, deps, keys, n + 1) == UpsertAll(o, n + 1, DepsAfter(o, deps, keys, n), keys)
  {
  }

  /** Upserts only add keys, and only the given ones. When no upsert fails, all keys are added
      and the attempt goes on; when no `findUnique` throws, the attempt goes on; an error that
      ends the attempt is the `findUnique` error of one of the keys, whose upsert failed. */
  lemma {:induction false} UpsertAllSpec(o: Oracle, a: nat, deps: set<DepKey>, keys: seq<DepKey>)
    ensures deps <= UpsertAll(o, a, deps, keys).deps
    ensures forall k :: k in UpsertAll(o, a, deps, keys).deps ==> k in deps || k in keys
    ensures (forall k, ds :: !o.upsertFails(a, k, ds)) ==>
      UpsertAll(o, a, deps, keys).error.None? && forall k :: k in keys ==> k in UpsertAll(o, a, deps, keys).deps
    ensures (forall k :: o.queryError(a, DepLookup(k)).None?) ==> UpsertAll(o, a, deps, keys).error.None?
    ensures UpsertAll(o, a, deps, keys).error.Some? ==>
      exists k, ds :: k in keys && o.upsertFails(a, k, ds) && o.queryError(a, DepLookup(k)) == UpsertAll(o, a, deps, keys).error
    decreases |keys|
  {
    if keys != [] {
      var init := keys[..|keys| - 1];
      var k := keys[|keys| - 1];
      UpsertAllSpec(o, a, deps, init);
      assert keys == init + [k];
      var before := UpsertAll(o, a, deps, init);
      if before.error.None? && o.upsertFails(a, k, before.deps) && o.queryError(a, DepLookup(k)).Some? {
        assert k in keys && o.upsertFails(a, k, before.deps);
      }
    }
  }

  /** Upserting a concatenation is upserting one part, then, unless a `findUnique` threw, the
      other. */
  lemma {:induction false} UpsertAllAppend(o: Oracle, a: nat, deps: set<DepKey>, k1: seq<DepKey>, k2: seq<DepKey>)
    ensures UpsertAll(o, a, deps, k1 + k2) ==
      var u := UpsertAll(o, a, deps, k1);
      if u.error.Some? then u else UpsertAll(o, a, u.deps, k2)
    decreases |k2|
  {
    if k2 == [] {
      assert k1 + k2 == k1;
    } else {
      var init := k2[..|k2| - 1];
      assert (k1 + k2)[..|k1 + k2| - 1] == k1 + init;
      UpsertAllAppend(o, a, deps, k1, init);
    }
  }

  /** One of the upsert loops: each key in turn; a `findUnique` that throws ends the loop. */
  method UpsertKeys(o: Oracle, a: nat, deps: set<DepKey>, keys: seq<DepKey>)
    returns (r: set<DepKey>, err: Option<StoreError>)
    ensures Upserts(r, err) == UpsertAll(o, a, deps, keys)
  {
    r, err := deps, None;
    for i := 0 to |keys|
      invariant UpsertAll(o, a, deps, keys[..i]) == Upserts(r, None)
    {
      assert keys[..i + 1][..i] == keys[..i];
      if o.upsertFails(a, keys[i], r) {
        var existing := o.queryError(a, DepLookup(keys[i]));
        if existing.Some? {
          UpsertAllAppend(o, a, deps, keys[..i + 1], keys[i + 1..]);
          assert keys[..i + 1] + keys[i + 1..] == keys;
          return r, existing;
        }
      } else {
        r := r + {keys[i]};
      }
    }
    assert keys[..|keys|] == keys;
  }

  /** One attempt's upserts: the franchisor loop, the agency loop, the location loop; a
      `findUnique` that throws skips the loops after it. */
  method UpsertDependencies(o: Oracle, a: nat, deps: set<DepKey>,
      fs: seq<Franchisor>, ags: seq<Agency>, ls: seq<Location>) returns (r: set<DepKey>, err: Option<StoreError>)
    ensures Upserts(r, err) == UpsertAll(o, a, deps, DepKeys(fs, ags, ls))
  {
    var fks, aks, lks := FranchisorDeps(fs), AgencyDeps(ags), LocationDeps(ls);
    UpsertAllAppend(o, a, deps, fks + aks, lks);
    UpsertAllAppend(o, a, deps, fks, aks);
    r, err := UpsertKeys(o, a, deps, fks);
    if err.Some? {
      return;
    }
    r, err := UpsertKeys(o, a, r, aks);
    if err.Some? {
      return;
    }
    r, err := UpsertKeys(o, a, r, lks);
  }

  // ---------------------------------------------------------------------------
  // Ordering by id

  ghost predicate Total(le: (Value, Value) -> bool) {
    forall x, y :: le(x, y) || le(y, x)
  }

  /** Each element's key is at most the next one's. */
  predicate SortedBy<T>(s: seq<T>, key: T -> Value, le: (Value, Value) -> bool) {
    forall i :: 1 <= i < |s| ==> le(key(s[i - 1]), key(s[i]))
  }

  /** Place `x` after the leading elements whose key is at most its own. */
  function InsertSorted<T>(x: T, t: seq<T>, key: T -> Value, le: (Value, Value) -> bool): (r: seq<T>)
    ensures multiset(r) == multiset(t) + multiset{x}
    decreases |t|
  {
    if t == [] then [x]
    else
      assert t == [t[0]] + t[1..];
      if le(key(t[0]), key(x)) then [t[0]] + InsertSorted(x, t[1..], key, le) else [x] + t
  }

  /** `sort` with a comparator on keys: a stable insertion sort. */
  function SortBy<T>(s: seq<T>, key: T -> Value, le: (Value, Value) -> bool): (r: seq<T>)
    ensures multiset(r) == multiset(s)
    decreases |s|
  {
    if s == [] then []
    else
      assert s == s[..|s| - 1] + [s[|s| - 1]];
      InsertSorted(s[|s| - 1], SortBy(s[..|s| - 1], key, le), key, le)
  }

  /** Dropping the first element keeps a sequence sorted. */
  lemma SortedTail<T>(t: seq<T>, key: T -> Value, le: (Value, Value) -> bool)
    requires t != [] && SortedBy(t, key, le)
    ensures SortedBy(t[1..], key, le)
  {
    var t' := t[1..];
    forall i | 1 <= i < |t'| ensures le(key(t'[i - 1]), key(t'[i])) {
      assert t'[i - 1] == t[i] && t'[i] == t[i + 1];
    }
  }

  /** An element whose key is at most the head's can go in front of a sorted sequence. */
  lemma SortedCons<T>(y: T, t: seq<T>, key: T -> Value, le: (Value, Value) -> bool)
    requires SortedBy(t, key, le) && (t != [] ==> le(key(y), key(t[0])))
    ensures SortedBy([y] + t, key, le)
  {
    var r := [y] + t;
    forall i | 1 <= i < |r| ensures le(key(r[i - 1]), key(r[i])) {
      if i > 1 {
        assert r[i - 1] == t[i - 2] && r[i] == t[i - 1];
      }
    }
  }

  lemma {:induction false} InsertSortedSorted<T>(x: T, t: seq<T>, key: T -> Value, le: (Value, Value) -> bool)
    requires Total(le) && SortedBy(t, key, le)
    ensures var r := InsertSorted(x, t, key, le);
      SortedBy(r, key, le) && |r| == |t| + 1 && (r[0] == x || (t != [] && r[0] == t[0]))
    decreases |t|
  {
    if t != [] && le(key(t[0]), key(x)) {
      SortedTail(t, key, le);
      InsertSortedSorted(x, t[1..], key, le);
      var rest := InsertSorted(x, t[1..], key, le);
      assert rest[0] == x || rest[0] == t[1];
      SortedCons(t[0], rest, key, le);
      assert InsertSorted(x, t, key, le) == [t[0]] + rest;
    } else {
      assert t != [] ==> le(key(x), key(t[0]));
      SortedCons(x, t, key, le);
      assert InsertSorted(x, t, key, le) == [x] + t;
    }
  }

  /** Under a total order, the sort returns its input rearranged into key order. */
  lemma {:induction false} SortBySorted<T>(s: seq<T>, key: T -> Value, le: (Value, Value) -> bool)
    requires Total(le)
    ensures SortedBy(SortBy(s, key, le), key, le)
    ensures |SortBy(s, key, le)| == |s|
    decreases |s|
  {
    if s != [] {
      SortBySorted(s[..|s| - 1], key, le);
      InsertSortedSorted(s[|s| - 1], SortBy(s[..|s| - 1], key, le), key, le);
    }
  }

  // ---------------------------------------------------------------------------
  // The caregiver writer

  function CaregiverIdOf(c: Caregiver): Value { c.caregiverId }

  function CaregiverIdSet(cs: seq<Caregiver>): set<Value> {
    set i | 0 <= i < |cs| :: cs[i].caregiverId
  }

  function UnstoredCaregiver(existing: set<Value>): Caregiver -> bool {
    (c: Caregiver) => c.caregiverId !in existing
  }

  function StoredCaregiver(existing: set<Value>): Caregiver -> bool {
    (c: Caregiver) => c.caregiverId in existing
  }

  /** `newCaregivers`: the batch's caregivers whose id is not stored yet. */
  function NewCaregivers(cs: seq<Caregiver>, existing: set<Value>): seq<Caregiver> {
    Filter(cs, UnstoredCaregiver(existing))
  }

  /** `duplicateCaregivers`: the rest. */
  function DuplicateCaregivers(cs: seq<Caregiver>, existing: set<Value>): seq<Caregiver> {
    Filter(cs, StoredCaregiver(existing))
  }

  /** What reaches `createMany`: the new caregivers, sorted by id. */
  function CaregiverData(cs: seq<Caregiver>, existing: set<Value>, le: (Value, Value) -> bool): seq<Caregiver> {
    SortBy(NewCaregivers(cs, existing), CaregiverIdOf, le)
  }

  /** New and duplicate caregivers split the batch; only new ones are submitted, each once
      per occurrence in the batch, in id order. */
  lemma CaregiverPlan(cs: seq<Caregiver>, existing: set<Value>, le: (Value, Value) -> bool)
    ensures multiset(NewCaregivers(cs, existing)) + multiset(DuplicateCaregivers(cs, existing)) == multiset(cs)
    ensures |NewCaregivers(cs, existing)| + |DuplicateCaregivers(cs, existing)| == |cs|
    ensures multiset(CaregiverData(cs, existing, le)) == multiset(NewCaregivers(cs, existing))
    ensures forall c :: c in CaregiverData(cs, existing, le) <==> c in cs && c.caregiverId !in existing
    ensures Total(le) ==> SortedBy(CaregiverData(cs, existing, le), CaregiverIdOf, le)
  {
    var p := UnstoredCaregiver(existing);
    var q := StoredCaregiver(existing);
    FilterPartition(cs, p, q);
    forall c ensures c in CaregiverData(cs, existing, le) <==> c in cs && c.caregiverId !in existing {
      FilterMember(cs, p, c);
      assert c in CaregiverData(cs, existing, le) <==> c in multiset(CaregiverData(cs, existing, le));
    }
    if Total(le) {
      SortBySorted(NewCaregivers(cs, existing), CaregiverIdOf, le);
    }
  }

  /** What one caregiver attempt comes to, after its upserts: the existence lookup may throw;
      an all-duplicate batch returns 0 without inserting; otherwise `createMany` decides on
      `data`, the rows submitted. */
  function CaregiverAttempt(o: Oracle, cfg: WriterConfig, cs: seq<Caregiver>, data: seq<Caregiver>, a: nat): AttemptOutcome
  {
    match o.queryError(a, CaregiverIds(cs))
    case Some(e) => AttemptFailed(e)
    case None => if data == [] then AttemptOk(0) else o.createCaregivers(a, data, cfg.skipDuplicates)
  }

  /** A whole caregiver attempt: its upserts of `keys`, on what the earlier attempts left;
      a `findUnique` that throws there fails the attempt, and otherwise the insert decides. */
  function CaregiverTry(o: Oracle, cfg: WriterConfig, store: Store, keys: seq<DepKey>, cs: seq<Caregiver>,
      data: seq<Caregiver>, a: nat): AttemptOutcome
  {
    match UpsertsAt(o, store.deps, keys, a).error
    case Some(e) => AttemptFailed(e)
    case None => CaregiverAttempt(o, cfg, cs, data, a)
  }

  /** Attempt by attempt; the rows submitted are the same on every attempt, since an attempt
      that fails stores no caregiver. */
  function CaregiverOutcomes(o: Oracle, cfg: WriterConfig, store: Store, keys: seq<DepKey>, cs: seq<Caregiver>,
      le: (Value, Value) -> bool): nat -> AttemptOutcome
  {
    var data := CaregiverData(cs, store.caregivers, le);
    (a: nat) => CaregiverTry(o, cfg, store, keys, cs, data, a)
  }

  /** A throwing `findUnique` among an attempt's upserts fails the attempt with that error,
      before the existence lookup and `createMany`; when no `findUnique` throws, what the
      attempt comes to is decided by the lookup and the insert alone. */
  lemma DependencyLookups(o: Oracle, cfg: WriterConfig, store: Store, keys: seq<DepKey>, cs: seq<Caregiver>,
      le: (Value, Value) -> bool, a: nat)
    ensures UpsertsAt(o, store.deps, keys, a).error.Some? ==>
      CaregiverOutcomes(o, cfg, store, keys, cs, le)(a) == AttemptFailed(UpsertsAt(o, store.deps, keys, a).error.value)
    ensures (forall k :: o.queryError(a, DepLookup(k)).None?) ==>
      CaregiverOutcomes(o, cfg, store, keys, cs, le)(a) == CaregiverAttempt(o, cfg, cs, CaregiverData(cs, store.caregivers, le), a)
  {
    UpsertAllSpec(o, a, DepsAfter(o, store.deps, keys, if a == 0 then 0 else a - 1), keys);
  }

  /** The outcome of a call to a writer: what it returned or threw, the store afterwards, the
      number of attempts and the sleeps between them. */
  datatype Write = Write(result: Result<nat, StoreError>, store: Store, attempts: nat, delays: seq<int>)

  /** `insertCaregiversBatchWithDependencies` as a function: an empty batch returns 0 at once;
      otherwise every attempt upserts the dependencies, and a successful attempt stores the
      submitted ids. */
  function CaregiverWrite(o: Oracle, cfg: WriterConfig, le: (Value, Value) -> bool, store: Store,
      fs: seq<Franchisor>, ags: seq<Agency>, ls: seq<Location>, cs: seq<Caregiver>): Write
  {
    if cs == [] then Write(Ok(0), store, 0, [])
    else
      var run := Retry.Retry(CaregiverPath, PolicyOf(cfg.retry), CaregiverOutcomes(o, cfg, store, DepKeys(fs, ags, ls), cs, le));
      var added := if run.result.Ok? then CaregiverIdSet(CaregiverData(cs, store.caregivers, le)) else {};
      Write(run.result,
        Store(DepsAfter(o, store.deps, DepKeys(fs, ags, ls), run.attempts), store.caregivers + added, store.carelogs),
        run.attempts, run.delays)
  }

  /** One caregiver attempt after its upserts: the lookup, the partition, the sort and
      `createMany`; `data` is what was submitted. */
  method CaregiverAttemptStep(o: Oracle, cfg: WriterConfig, le: (Value, Value) -> bool,
      store: Store, cs: seq<Caregiver>, a: nat) returns (out: AttemptOutcome, data: seq<Caregiver>)
    ensures out == CaregiverAttempt(o, cfg, cs, CaregiverData(cs, store.caregivers, le), a)
    ensures out.AttemptOk? ==> data == CaregiverData(cs, store.caregivers, le)
  {
    data := [];
    var lookup := o.queryError(a, CaregiverIds(cs));
    if lookup.Some? {
      return AttemptFailed(lookup.value), data;
    }
    var unseen := Filter(cs, UnstoredCaregiver(store.caregivers));
    data := SortBy(unseen, CaregiverIdOf, le);
    if |data| == 0 {
      return AttemptOk(0), data;
    }
    out := o.createCaregivers(a, data, cfg.skipDuplicates);
  }

  /** `insertCaregiversBatchWithDependencies`. */
  method InsertCaregiversBatchWithDependencies(o: Oracle, cfg: WriterConfig, le: (Value, Value) -> bool,
      store: Store, fs: seq<Franchisor>, ags: seq<Agency>, ls: seq<Location>, cs: seq<Caregiver>)
    returns (w: Write)
    ensures w == CaregiverWrite(o, cfg, le, store, fs, ags, ls, cs)
  {
    if |cs| == 0 {
      return Write(Ok(0), store, 0, []);
    }
    var run, deps, added := CaregiverAttempts(o, cfg, le, store, fs, ags, ls, cs);
    CaregiverWriteOf(o, cfg, le, store, fs, ags, ls, cs, run, added);
    w := Write(run.result, Store(deps, store.caregivers + added, store.carelogs), run.attempts, run.delays);
  }

  /** One turn of the caregiver retry loop at `attempt`, after the sleeps `delays`: the
      upserts, then the insert; `stop` when the loop returns here, with `run` what it comes to;
      otherwise the error to remember and the sleeps so far. */
  method CaregiverTurn(o: Oracle, cfg: WriterConfig, le: (Value, Value) -> bool, store: Store,
      fs: seq<Franchisor>, ags: seq<Agency>, ls: seq<Location>, cs: seq<Caregiver>, p: Policy,
      attempt: nat, last: Option<StoreError>, delays: seq<int>, deps: set<DepKey>, ghost tried: nat)
    returns (stop: bool, run: RetryRun, added: set<Value>, next: Option<StoreError>, slept: seq<int>, upserted: set<DepKey>)
    requires 1 <= attempt <= p.maxRetries
    requires tried == attempt - 1 && deps == DepsAfter(o, store.deps, DepKeys(fs, ags, ls), tried)
    ensures upserted == DepsAfter(o, store.deps, DepKeys(fs, ags, ls), attempt)
    ensures stop ==> upserted == DepsAfter(o, store.deps, DepKeys(fs, ags, ls), run.attempts)
    ensures stop ==> run == After(delays, RetryFrom(CaregiverPath, p, CaregiverOutcomes(o, cfg, store, DepKeys(fs, ags, ls), cs, le), attempt, last))
    ensures !stop ==>
      After(delays, RetryFrom(CaregiverPath, p, CaregiverOutcomes(o, cfg, store, DepKeys(fs, ags, ls), cs, le), attempt, last)) ==
      After(slept, RetryFrom(CaregiverPath, p, CaregiverOutcomes(o, cfg, store, DepKeys(fs, ags, ls), cs, le), attempt + 1, next))
    ensures stop ==> run.result.Ok? && added == CaregiverIdSet(CaregiverData(cs, store.caregivers, le))
  {
    ghost var outcome := CaregiverOutcomes(o, cfg, store, DepKeys(fs, ags, ls), cs, le);
    var err;
    upserted, err := UpsertDependencies(o, attempt, deps, fs, ags, ls);
    DepsAfterNext(o, store.deps, DepKeys(fs, ags, ls), tried);
    var out: AttemptOutcome;
    var data: seq<Caregiver> := [];
    if err.Some? {
      out := AttemptFailed(err.value);
    } else {
      out, data := CaregiverAttemptStep(o, cfg, le, store, cs, attempt);
    }
    assert out == outcome(attempt);
    if out.AttemptOk? {
      RetrySucceeds(CaregiverPath, p, outcome, attempt, last, delays);
      return true, RetryRun(Ok(out.count), attempt, delays), CaregiverIdSet(data), last, delays, upserted;
    }
    var e := out.error;
    if IsDeadlock(e) && attempt < p.maxRetries {
      RetryBacksOff(CaregiverPath, p, outcome, attempt, last, delays);
      slept := delays + [Backoff(p, attempt)];
    } else {
      RetryMovesOn(p, outcome, attempt, last, delays);
      slept := delays;
    }
    return false, RetryRun(Err(e), attempt, delays), {}, Some(e), slept, upserted;
  }

  /** The retry loop, with the rest of the run as its invariant: each attempt upserts the
      dependencies, then tries the insert. */
  method CaregiverAttempts(o: Oracle, cfg: WriterConfig, le: (Value, Value) -> bool,
      store: Store, fs: seq<Franchisor>, ags: seq<Agency>, ls: seq<Location>, cs: seq<Caregiver>)
    returns (run: RetryRun, deps: set<DepKey>, added: set<Value>)
    ensures run == Retry.Retry(CaregiverPath, PolicyOf(cfg.retry), CaregiverOutcomes(o, cfg, store, DepKeys(fs, ags, ls), cs, le))
    ensures deps == DepsAfter(o, store.deps, DepKeys(fs, ags, ls), run.attempts)
    ensures run.result.Ok? ==> added == CaregiverIdSet(CaregiverData(cs, store.caregivers, le))
    ensures run.result.Err? ==> added == {}
  {
    var p := PolicyOf(cfg.retry);
    ghost var outcome := CaregiverOutcomes(o, cfg, store, DepKeys(fs, ags, ls), cs, le);
    ghost var keys := DepKeys(fs, ags, ls);
    deps := store.deps;
    var delays: seq<int> := [];
    var last: Option<StoreError> := None;
    var attempt := 1;
    ghost var tried: nat := 0;
    while attempt <= p.maxRetries
      invariant attempt >= 1 && tried == attempt - 1
      invariant deps == DepsAfter(o, store.deps, keys, tried)
      invariant Retry.Retry(CaregiverPath, p, outcome) == After(delays, RetryFrom(CaregiverPath, p, outcome, attempt, last))
      decreases p.maxRetries - attempt
    {
      var stop, result, ids, next, slept, upserted := CaregiverTurn(o, cfg, le, store, fs, ags, ls, cs, p, attempt, last, delays, deps, tried);
      deps := upserted;
      if stop {
        return result, deps, ids;
      }
      last, delays := next, slept;
      tried := attempt;
      attempt := attempt + 1;
    }
    run := GiveUp(CaregiverPath, p, outcome, attempt, last, delays);
    added := {};
  }

  /** `CaregiverWrite` for a given run of the loop. */
  lemma CaregiverWriteOf(o: Oracle, cfg: WriterConfig, le: (Value, Value) -> bool, store: Store,
      fs: seq<Franchisor>, ags: seq<Agency>, ls: seq<Location>, cs: seq<Caregiver>, run: RetryRun, ids: set<Value>)
    requires cs != []
    requires run == Retry.Retry(CaregiverPath, PolicyOf(cfg.retry), CaregiverOutcomes(o, cfg, store, DepKeys(fs, ags, ls), cs, le))
    requires run.result.Ok? ==> ids == CaregiverIdSet(CaregiverData(cs, store.caregivers, le))
    requires run.result.Err? ==> ids == {}
    ensures CaregiverWrite(o, cfg, le, store, fs, ags, ls, cs) ==
      Write(run.result, Store(DepsAfter(o, store.deps, DepKeys(fs, ags, ls), run.attempts), store.caregivers + ids, store.carelogs),
        run.attempts, run.delays)
  {
  }

  /** The caregiver writer leaves carelogs alone, only adds dependencies and caregivers, adds
      only ids of submitted new caregivers, and (with an honest database) never reports more
      rows than the batch had. */
  lemma CaregiverWriteSpec(o: Oracle, cfg: WriterConfig, le: (Value, Value) -> bool, store: Store,
      fs: seq<Franchisor>, ags: seq<Agency>, ls: seq<Location>, cs: seq<Caregiver>)
    ensures var w := CaregiverWrite(o, cfg, le, store, fs, ags, ls, cs);
      w.store.carelogs == store.carelogs &&
      store.deps <= w.store.deps && store.caregivers <= w.store.caregivers &&
      (forall id :: id in w.store.caregivers && id !in store.caregivers ==>
        exists i :: 0 <= i < |cs| && cs[i].caregiverId == id) &&
      (Honest(o) && w.result.Ok? ==> w.result.value <= |cs|)
  {
    if cs != [] {
      var run := Retry.Retry(CaregiverPath, PolicyOf(cfg.retry), CaregiverOutcomes(o, cfg, store, DepKeys(fs, ags, ls), cs, le));
      DepsAfterGrows(o, store.deps, DepKeys(fs, ags, ls), run.attempts);
      CaregiverDataFrom(cs, store.caregivers, le);
      if Honest(o) {
        CaregiverCountBound(o, cfg, store, DepKeys(fs, ags, ls), cs, le);
      }
    }
  }

  /** The rows submitted come from the batch, so their ids are ids of the batch. */
  lemma CaregiverDataFrom(cs: seq<Caregiver>, existing: set<Value>, le: (Value, Value) -> bool)
    ensures |CaregiverData(cs, existing, le)| <= |cs|
    ensures forall id :: id in CaregiverIdSet(CaregiverData(cs, existing, le)) ==>
      exists i :: 0 <= i < |cs| && cs[i].caregiverId == id
  {
    var data := CaregiverData(cs, existing, le);
    CaregiverPlan(cs, existing, le);
    forall id | id in CaregiverIdSet(data) ensures exists i :: 0 <= i < |cs| && cs[i].caregiverId == id {
      var j :| 0 <= j < |data| && data[j].caregiverId == id;
      assert data[j] in data;
      var i :| 0 <= i < |cs| && cs[i] == data[j];
    }
    assert |data| == |NewCaregivers(cs, existing)| by {
      assert |multiset(data)| == |multiset(NewCaregivers(cs, existing))|;
    }
  }

  /** With an honest database the caregiver loop never reports more rows than the batch had. */
  lemma CaregiverCountBound(o: Oracle, cfg: WriterConfig, store: Store, keys: seq<DepKey>, cs: seq<Caregiver>,
      le: (Value, Value) -> bool)
    requires Honest(o)
    ensures var run := Retry.Retry(CaregiverPath, PolicyOf(cfg.retry), CaregiverOutcomes(o, cfg, store, keys, cs, le));
      run.result.Ok? ==> run.result.value <= |cs|
  {
    var outcome := CaregiverOutcomes(o, cfg, store, keys, cs, le);
    RetryBounds(CaregiverPath, PolicyOf(cfg.retry), outcome);
    CaregiverDataFrom(cs, store.caregivers, le);
  }

  lemma {:induction false} DepsAfterGrows(o: Oracle, deps: set<DepKey>, keys: seq<DepKey>, n: nat)
    ensures deps <= DepsAfter(o, deps, keys, n)
  {
    if n > 0 {
      DepsAfterGrows(o, deps, keys, n - 1);
      UpsertAllSpec(o, n, DepsAfter(o, deps, keys, n - 1), keys);
    }
  }

  // ---------------------------------------------------------------------------
  // The carelog writer

  function CarelogIdOf(c: Carelog): Value { c.carelogId }

  function CarelogIdSet(cls: seq<Carelog>): set<Value> {
    set i | 0 <= i < |cls| :: cls[i].carelogId
  }

  function KnownCaregiver(caregivers: set<Value>): Carelog -> bool {
    (c: Carelog) => c.caregiverId in caregivers
  }

  function UnknownCaregiver(caregivers: set<Value>): Carelog -> bool {
    (c: Carelog) => c.caregiverId !in caregivers
  }

  function UnstoredCarelog(carelogs: set<Value>): Carelog -> bool {
    (c: Carelog) => c.carelogId !in carelogs
  }

  /** `validCarelogs`: the carelogs whose caregiver is stored. */
  function ValidCarelogs(cls: seq<Carelog>, caregivers: set<Value>): seq<Carelog> {
    Filter(cls, KnownCaregiver(caregivers))
  }

  function MissingCaregiver(cls: seq<Carelog>, caregivers: set<Value>): seq<Carelog> {
    Filter(cls, UnknownCaregiver(caregivers))
  }

  /** `skippedCarelogs`: the ids of the carelogs whose caregiver is missing. */
  function SkippedCarelogs(cls: seq<Carelog>, caregivers: set<Value>): seq<Value> {
    Map(MissingCaregiver(cls, caregivers), CarelogIdOf)
  }

  lemma PartitionStep(prefix: seq<Carelog>, c: Carelog, caregivers: set<Value>)
    ensures ValidCarelogs(prefix + [c], caregivers) ==
      ValidCarelogs(prefix, caregivers) + (if c.caregiverId in caregivers then [c] else [])
    ensures SkippedCarelogs(prefix + [c], caregivers) ==
      SkippedCarelogs(prefix, caregivers) + (if c.caregiverId in caregivers then [] else [c.carelogId])
  {
    FilterSnoc(prefix, c, KnownCaregiver(caregivers));
    FilterSnoc(prefix, c, UnknownCaregiver(caregivers));
    var m := MissingCaregiver(prefix, caregivers);
    if c.caregiverId !in caregivers {
      assert MissingCaregiver(prefix + [c], caregivers) == m + [c];
      MapSnoc(m, c, CarelogIdOf);
    } else {
      assert MissingCaregiver(prefix + [c], caregivers) == m;
    }
  }

  /** The valid/skipped `push` loop. */
  method PartitionCarelogs(cls: seq<Carelog>, caregivers: set<Value>) returns (valid: seq<Carelog>, skipped: seq<Value>)
    ensures valid == ValidCarelogs(cls, caregivers)
    ensures skipped == SkippedCarelogs(cls, caregivers)
  {
    valid, skipped := [], [];
    for i := 0 to |cls|
      invariant valid == ValidCarelogs(cls[..i], caregivers)
      invariant skipped == SkippedCarelogs(cls[..i], caregivers)
    {
      var c := cls[i];
      assert cls[..i + 1] == cls[..i] + [c];
      PartitionStep(cls[..i], c, caregivers);
      if c.caregiverId in caregivers {
        valid := valid + [c];
      } else {
        skipped := skipped + [c.carelogId];
      }
    }
    assert cls[..|cls|] == cls;
  }

  /** Each carelog lands in exactly one list: valid when its caregiver exists, skipped (by id)
      otherwise, each list in batch order. */
  lemma CarelogPartition(cls: seq<Carelog>, caregivers: set<Value>)
    ensures |ValidCarelogs(cls, caregivers)| + |SkippedCarelogs(cls, caregivers)| == |cls|
    ensures multiset(ValidCarelogs(cls, caregivers)) + multiset(MissingCaregiver(cls, caregivers)) == multiset(cls)
    ensures forall c :: c in ValidCarelogs(cls, caregivers) <==> c in cls && c.caregiverId in caregivers
    ensures forall c :: c in MissingCaregiver(cls, caregivers) <==> c in cls && c.caregiverId !in caregivers
  {
    var p := KnownCaregiver(caregivers);
    var q := UnknownCaregiver(caregivers);
    FilterPartition(cls, p, q);
    forall c ensures c in ValidCarelogs(cls, caregivers) <==> c in cls && c.caregiverId in caregivers {
      FilterMember(cls, p, c);
    }
    forall c ensures c in MissingCaregiver(cls, caregivers) <==> c in cls && c.caregiverId !in caregivers {
      FilterMember(cls, q, c);
    }
  }

  /** `newCarelogs`: the valid carelogs whose id is not stored yet; ids repeated within the
      batch stay repeated. */
  function FreshCarelogs(valid: seq<Carelog>, carelogs: set<Value>): seq<Carelog> {
    Filter(valid, UnstoredCarelog(carelogs))
  }

  function CarelogData(cls: seq<Carelog>, store: Store, le: (Value, Value) -> bool): seq<Carelog> {
    SortBy(FreshCarelogs(ValidCarelogs(cls, store.caregivers), store.carelogs), CarelogIdOf, le)
  }

  /** Exactly the carelogs whose caregiver is stored and whose own id is not are submitted,
      in id order. */
  lemma CarelogPlan(cls: seq<Carelog>, store: Store, le: (Value, Value) -> bool)
    ensures forall c :: c in CarelogData(cls, store, le) <==>
      c in cls && c.caregiverId in store.caregivers && c.carelogId !in store.carelogs
    ensures multiset(CarelogData(cls, store, le)) ==
      multiset(FreshCarelogs(ValidCarelogs(cls, store.caregivers), store.carelogs))
    ensures |CarelogData(cls, store, le)| <= |cls|
    ensures Total(le) ==> SortedBy(CarelogData(cls, store, le), CarelogIdOf, le)
  {
    var valid := ValidCarelogs(cls, store.caregivers);
    var unseen := FreshCarelogs(valid, store.carelogs);
    CarelogPartition(cls, store.caregivers);
    forall c ensures c in CarelogData(cls, store, le) <==>
      c in cls && c.caregiverId in store.caregivers && c.carelogId !in store.carelogs
    {
      FilterMember(valid, UnstoredCarelog(store.carelogs), c);
      assert c in CarelogData(cls, store, le) <==> c in multiset(CarelogData(cls, store, le));
    }
    assert |multiset(CarelogData(cls, store, le))| == |unseen|;
    if Total(le) {
      SortBySorted(unseen, CarelogIdOf, le);
    }
  }

  /** One carelog attempt: the caregiver lookup, the valid/skipped split, the carelog lookup,
      and `createMany` with `skipDuplicates` forced on; `valid` and `unseen` are the carelogs
      with a stored caregiver and those of them with an unstored id. */
  function CarelogAttempt(o: Oracle, cls: seq<Carelog>, valid: seq<Carelog>, unseen: seq<Carelog>,
      le: (Value, Value) -> bool, a: nat): AttemptOutcome
  {
    match o.queryError(a, CarelogCaregiverIds(cls))
    case Some(e) => AttemptFailed(e)
    case None =>
      if valid == [] then AttemptOk(0)
      else match o.queryError(a, CarelogIds(valid))
        case Some(e) => AttemptFailed(e)
        case None => if unseen == [] then AttemptOk(0) else o.createCarelogs(a, SortBy(unseen, CarelogIdOf, le), true)
  }

  /** Attempt by attempt; the split is the same on every attempt, since an attempt that fails
      stores no carelog. */
  function CarelogOutcomes(o: Oracle, store: Store, cls: seq<Carelog>, le: (Value, Value) -> bool): nat -> AttemptOutcome {
    var valid := ValidCarelogs(cls, store.caregivers);
    var unseen := FreshCarelogs(valid, store.carelogs);
    (a: nat) => CarelogAttempt(o, cls, valid, unseen, le, a)
  }

  /** `insertCarelogsBatch` as a function. */
  function CarelogWrite(o: Oracle, cfg: WriterConfig, le: (Value, Value) -> bool, store: Store, cls: seq<Carelog>): Write {
    if cls == [] then Write(Ok(0), store, 0, [])
    else
      var run := Retry.Retry(CarelogPath, PolicyOf(cfg.retry), CarelogOutcomes(o, store, cls, le));
      var added := if run.result.Ok? then CarelogIdSet(CarelogData(cls, store, le)) else {};
      Write(run.result, store.(carelogs := store.carelogs + added), run.attempts, run.delays)
  }

  /** One carelog attempt; `data` is what was submitted. */
  method CarelogAttemptStep(o: Oracle, le: (Value, Value) -> bool, store: Store, cls: seq<Carelog>, a: nat)
    returns (out: AttemptOutcome, data: seq<Carelog>)
    ensures out == CarelogOutcomes(o, store, cls, le)(a)
    ensures out.AttemptOk? ==> data == CarelogData(cls, store, le)
  {
    data := [];
    var lookup := o.queryError(a, CarelogCaregiverIds(cls));
    if lookup.Some? {
      return AttemptFailed(lookup.value), data;
    }
    var valid, skipped := PartitionCarelogs(cls, store.caregivers);
    if |valid| == 0 {
      return AttemptOk(0), data;
    }
    var lookup2 := o.queryError(a, CarelogIds(valid));
    if lookup2.Some? {
      return AttemptFailed(lookup2.value), data;
    }
    var unseen := Filter(valid, UnstoredCarelog(store.carelogs));
    data := SortBy(unseen, CarelogIdOf, le);
    if |unseen| == 0 {
      return AttemptOk(0), data;
    }
    out := o.createCarelogs(a, data, true);
  }

  /** `insertCarelogsBatch`. */
  method InsertCarelogsBatch(o: Oracle, cfg: WriterConfig, le: (Value, Value) -> bool, store: Store, cls: seq<Carelog>)
    returns (w: Write)
    ensures w == CarelogWrite(o, cfg, le, store, cls)
  {
    if |cls| == 0 {
      return Write(Ok(0), store, 0, []);
    }
    var run, added := CarelogAttempts(o, cfg, le, store, cls);
    CarelogWriteOf(o, cfg, le, store, cls, run, added);
    w := Write(run.result, store.(carelogs := store.carelogs + added), run.attempts, run.delays);
  }

  /** `CarelogWrite` for a given run of the loop. */
  lemma CarelogWriteOf(o: Oracle, cfg: WriterConfig, le: (Value, Value) -> bool, store: Store, cls: seq<Carelog>,
      run: RetryRun, ids: set<Value>)
    requires cls != []
    requires run == Retry.Retry(CarelogPath, PolicyOf(cfg.retry), CarelogOutcomes(o, store, cls, le))
    requires run.result.Ok? ==> ids == CarelogIdSet(CarelogData(cls, store, le))
    requires run.result.Err? ==> ids == {}
    ensures CarelogWrite(o, cfg, le, store, cls) ==
      Write(run.result, store.(carelogs := store.carelogs + ids), run.attempts, run.delays)
  {
  }

  /** One turn of the carelog retry loop at `attempt`, after the sleeps `delays`: `stop` when
      the loop returns or throws here, with `run` what it comes to; otherwise the error to
      remember and the sleeps so far, from which the rest of the loop goes on. */
  method CarelogTurn(o: Oracle, le: (Value, Value) -> bool, store: Store, cls: seq<Carelog>, p: Policy,
      attempt: nat, last: Option<StoreError>, delays: seq<int>)
    returns (stop: bool, run: RetryRun, added: set<Value>, next: Option<StoreError>, slept: seq<int>)
    requires 1 <= attempt <= p.maxRetries
    ensures var here := After(delays, RetryFrom(CarelogPath, p, CarelogOutcomes(o, store, cls, le), attempt, last));
      if stop then run == here
      else here == After(slept, RetryFrom(CarelogPath, p, CarelogOutcomes(o, store, cls, le), attempt + 1, next))
    ensures stop && run.result.Ok? ==> added == CarelogIdSet(CarelogData(cls, store, le))
    ensures stop && run.result.Err? ==> added == {}
  {
    ghost var outcome := CarelogOutcomes(o, store, cls, le);
    next, slept := last, delays;
    var out, data := CarelogAttemptStep(o, le, store, cls, attempt);
    if out.AttemptOk? {
      RetrySucceeds(CarelogPath, p, outcome, attempt, last, delays);
      return true, RetryRun(Ok(out.count), attempt, delays), CarelogIdSet(data), next, slept;
    }
    var e := out.error;
    if IsDeadlock(e) && attempt < p.maxRetries {
      RetryBacksOff(CarelogPath, p, outcome, attempt, last, delays);
      return false, RetryRun(Err(e), attempt, delays), {}, Some(e), delays + [Backoff(p, attempt)];
    }
    RetryThrows(p, outcome, attempt, last, delays);
    return true, RetryRun(Err(e), attempt, delays), {}, next, slept;
  }

  /** The carelog retry loop: only a deadlock is retried. */
  method CarelogAttempts(o: Oracle, cfg: WriterConfig, le: (Value, Value) -> bool, store: Store, cls: seq<Carelog>)
    returns (run: RetryRun, added: set<Value>)
    ensures run == Retry.Retry(CarelogPath, PolicyOf(cfg.retry), CarelogOutcomes(o, store, cls, le))
    ensures run.result.Ok? ==> added == CarelogIdSet(CarelogData(cls, store, le))
    ensures run.result.Err? ==> added == {}
  {
    var p := PolicyOf(cfg.retry);
    ghost var outcome := CarelogOutcomes(o, store, cls, le);
    var delays: seq<int> := [];
    var last: Option<StoreError> := None;
    var attempt := 1;
    while attempt <= p.maxRetries
      invariant attempt >= 1
      invariant Retry.Retry(CarelogPath, p, outcome) == After(delays, RetryFrom(CarelogPath, p, outcome, attempt, last))
      decreases p.maxRetries - attempt
    {
      var stop, result, ids, next, slept := CarelogTurn(o, le, store, cls, p, attempt, last, delays);
      if stop {
        return result, ids;
      }
      last, delays := next, slept;
      attempt := attempt + 1;
    }
    run := GiveUp(CarelogPath, p, outcome, attempt, last, delays);
    added := {};
  }

  /** The carelog writer only adds carelog ids, and only ids of batch carelogs whose caregiver
      is stored; a write that throws changes nothing. */
  lemma CarelogWriteSpec(o: Oracle, cfg: WriterConfig, le: (Value, Value) -> bool, store: Store, cls: seq<Carelog>)
    ensures var w := CarelogWrite(o, cfg, le, store, cls);
      w.store.deps == store.deps && w.store.caregivers == store.caregivers &&
      store.carelogs <= w.store.carelogs &&
      (w.result.Err? ==> w.store == store) &&
      (forall id :: id in w.store.carelogs && id !in store.carelogs ==>
        exists i :: 0 <= i < |cls| && cls[i].carelogId == id && cls[i].caregiverId in store.caregivers)
  {
    if cls != [] {
      var data := CarelogData(cls, store, le);
      CarelogPlan(cls, store, le);
      forall id | id in CarelogIdSet(data)
        ensures exists i :: 0 <= i < |cls| && cls[i].carelogId == id && cls[i].caregiverId in store.caregivers
      {
        var j :| 0 <= j < |data| && data[j].carelogId == id;
        assert data[j] in data;
        var i :| 0 <= i < |cls| && cls[i] == data[j];
      }
    }
  }

  /** With an honest database, one carelog attempt never reports more rows than the batch had. */
  lemma CarelogAttemptBound(o: Oracle, store: Store, cls: seq<Carelog>, le: (Value, Value) -> bool, a: nat)
    requires Honest(o)
    ensures CarelogOutcomes(o, store, cls, le)(a).AttemptOk? ==> CarelogOutcomes(o, store, cls, le)(a).count <= |cls|
  {
    var unseen := FreshCarelogs(ValidCarelogs(cls, store.caregivers), store.carelogs);
    assert |SortBy(unseen, CarelogIdOf, le)| == |unseen| by {
      assert |multiset(SortBy(unseen, CarelogIdOf, le))| == |multiset(unseen)|;
    }
  }

  /** With an honest database, the carelog writer never reports more rows than the batch had. */
  lemma CarelogWriteBound(o: Oracle, cfg: WriterConfig, le: (Value, Value) -> bool, store: Store, cls: seq<Carelog>)
    requires Honest(o)
    ensures var w := CarelogWrite(o, cfg, le, store, cls); w.result.Ok? ==> w.result.value <= |cls|
  {
    if cls != [] {
      var outcome := CarelogOutcomes(o, store, cls, le);
      RetryBounds(CarelogPath, PolicyOf(cfg.retry), outcome);
      var run := Retry.Retry(CarelogPath, PolicyOf(cfg.retry), outcome);
      if run.result.Ok? {
        CarelogAttemptBound(o, store, cls, le, run.attempts);
      }
    }
  }

  // ---------------------------------------------------------------------------
  // Chunk fallback

  /** `Math.max(10, Math.floor(n / 10))`. */
  function ChunkSize(n: nat): (k: nat)
    ensures k >= 10 && k >= n / 10
    ensures k == 10 || k == n / 10
  {
    Max(10, n / 10)
  }

  /** The slices `s[i..i+k]` for `i = 0, k, 2k, ...` below `|s|`. */
  function Chunks<T>(s: seq<T>, k: nat): seq<seq<T>>
    requires k >= 1
    decreases |s|
  {
    if |s| == 0 then [] else [s[..Min(k, |s|)]] + Chunks(s[Min(k, |s|)..], k)
  }

  /** The chunks are non-empty consecutive slices of at most `k` elements, all full but the
      last, and together they are exactly the input. */
  lemma {:induction false} ChunksSpec<T>(s: seq<T>, k: nat)
    requires k >= 1
    ensures Flatten(Chunks(s, k)) == s
    ensures forall i :: 0 <= i < |Chunks(s, k)| ==> 1 <= |Chunks(s, k)[i]| <= k
    ensures forall i :: 0 <= i < |Chunks(s, k)| - 1 ==> |Chunks(s, k)[i]| == k
    ensures |Chunks(s, k)| <= |s|
    decreases |s|
  {
    if |s| > 0 {
      var m := Min(k, |s|);
      ChunksSpec(s[m..], k);
      var cs := Chunks(s, k);
      assert cs[1..] == Chunks(s[m..], k);
      assert s == s[..m] + s[m..];
      if m == |s| {
        assert s[m..] == [];
      }
      forall i | 0 <= i < |cs| - 1 ensures |cs[i]| == k {
        if i > 0 {
          assert cs[i] == Chunks(s[m..], k)[i - 1];
        } else {
          assert |s[m..]| > 0;
        }
      }
    }
  }

  /** The chunk starting at `i` and the chunks after it. */
  lemma ChunksFrom<T>(s: seq<T>, k: nat, i: nat)
    requires k >= 1 && i < |s|
    ensures Chunks(s[i..], k) == [s[i..Min(i + k, |s|)]] + Chunks(s[Min(i + k, |s|)..], k)
  {
    assert s[i..][..Min(k, |s| - i)] == s[i..Min(i + k, |s|)];
    assert s[i..][Min(k, |s| - i)..] == s[Min(i + k, |s|)..];
  }

  /** One step through the chunks: after the chunk at `i` come the chunks from its end. */
  lemma ChunksNext<T>(s: seq<T>, k: nat, i: nat, all: seq<seq<T>>, j: nat)
    requires k >= 1 && i < |s| && j <= |all|
    requires Chunks(s[i..], k) == all[j..]
    ensures j < |all| && all[j] == s[i..Min(i + k, |s|)]
    ensures Chunks(s[Min(i + k, |s|)..], k) == all[j + 1..]
  {
    ChunksFrom(s, k, i);
    assert all[j..][1..] == all[j + 1..];
  }

  datatype ChunkFailure = ChunkFailure(chunkNumber: nat, error: StoreError)

  /** What the fallback loop accumulated: rows inserted, rows of failed chunks, one failure per
      failed chunk, and the store afterwards. */
  datatype Fallback = Fallback(inserted: nat, failedRows: nat, failures: seq<ChunkFailure>, store: Store)

  /** One chunk's write folded into the tally: its count on success; on failure its rows and a
      failure numbered `number`. */
  function Absorb(acc: Fallback, w: Write, rows: nat, number: nat): Fallback {
    match w.result
    case Ok(c) => acc.(inserted := acc.inserted + c, store := w.store)
    case Err(e) => acc.(failedRows := acc.failedRows + rows,
      failures := acc.failures + [ChunkFailure(number, e)], store := w.store)
  }

  /** The carelog writer as a function of the store and the chunk. */
  function CarelogWriter(o: Oracle, cfg: WriterConfig, le: (Value, Value) -> bool): (Store, seq<Carelog>) -> Write {
    (s: Store, cls: seq<Carelog>) => CarelogWrite(o, cfg, le, s, cls)
  }

  /** The chunks written in turn by `write`, the `n`-th numbered `n`; a failing chunk is
      recorded and the next one still runs. */
  function ChunkRun(write: (Store, seq<Carelog>) -> Write, store: Store, chunks: seq<seq<Carelog>>): Fallback
    decreases |chunks|
  {
    if chunks == [] then Fallback(0, 0, [], store)
    else
      var acc := ChunkRun(write, store, chunks[..|chunks| - 1]);
      var chunk := chunks[|chunks| - 1];
      Absorb(acc, write(acc.store, chunk), |chunk|, |chunks|)
  }

  /** The run over the first `j + 1` chunks is the run over the first `j` with chunk `j`
      written after it. */
  lemma ChunkRunNext(write: (Store, seq<Carelog>) -> Write, store: Store, all: seq<seq<Carelog>>, j: nat)
    requires j < |all|
    ensures var acc := ChunkRun(write, store, all[..j]);
      ChunkRun(write, store, all[..j + 1]) == Absorb(acc, write(acc.store, all[j]), |all[j]|, j + 1)
  {
    assert all[..j + 1][..j] == all[..j];
    assert all[..j + 1][j] == all[j];
  }

  /** The chunk loop of the fallback. */
  method ChunkFallback(o: Oracle, cfg: WriterConfig, le: (Value, Value) -> bool, store: Store, cls: seq<Carelog>)
    returns (f: Fallback)
    ensures f == ChunkRun(CarelogWriter(o, cfg, le), store, Chunks(cls, ChunkSize(|cls|)))
  {
    var k := ChunkSize(|cls|);
    ghost var write := CarelogWriter(o, cfg, le);
    ghost var all := Chunks(cls, k);
    var inserted: nat, failedRows: nat := 0, 0;
    var failures: seq<ChunkFailure> := [];
    var current := store;
    var i := 0;
    var j: nat := 0;
    assert cls[0..] == cls;
    while i < |cls|
      invariant j <= |all|
      invariant Chunks(cls[Min(i, |cls|)..], k) == all[j..]
      invariant Fallback(inserted, failedRows, failures, current) == ChunkRun(write, store, all[..j])
      decreases |cls| - i
    {
      var next := Min(i + k, |cls|);
      var chunk := cls[i..next];
      assert Min(i, |cls|) == i;
      ChunksNext(cls, k, i, all, j);
      // `Math.floor(i / chunkSize) + 1`: `i` has advanced by `chunkSize` once per chunk
      var number := j + 1;
      ghost var acc := Fallback(inserted, failedRows, failures, current);
      ChunkRunNext(write, store, all, j);
      var w := InsertCarelogsBatch(o, cfg, le, current, chunk);
      assert w == write(current, chunk);
      if w.result.Ok? {
        inserted := inserted + w.result.value;
      } else {
        failedRows := failedRows + |chunk|;
        failures := failures + [ChunkFailure(number, w.result.error)];
      }
      current := w.store;
      assert Fallback(inserted, failedRows, failures, current) == Absorb(acc, w, |chunk|, number);
      i := i + k;
      j := j + 1;
      assert Min(i, |cls|) == next;
    }
    assert cls[Min(i, |cls|)..] == [];
    assert all[..j] == all;
    f := Fallback(inserted, failedRows, failures, current);
  }

  /** Failures numbered between 1 and `n`, in strictly increasing order. */
  predicate NumberedWithin(failures: seq<ChunkFailure>, n: nat) {
    (forall i :: 0 <= i < |failures| ==> 1 <= failures[i].chunkNumber <= n) &&
    (forall i, j :: 0 <= i < j < |failures| ==> failures[i].chunkNumber < failures[j].chunkNumber)
  }

  /** A tally over `n` chunks holding `rows` rows: failed rows are among them, and there is at
      most one failure per chunk, numbered by position. */
  predicate Tallied(f: Fallback, rows: nat, n: nat) {
    f.failedRows <= rows && |f.failures| <= n && NumberedWithin(f.failures, n)
  }

  lemma AbsorbTallied(acc: Fallback, w: Write, rows: nat, before: nat, n: nat)
    requires n >= 1 && Tallied(acc, before, n - 1)
    ensures Tallied(Absorb(acc, w, rows, n), before + rows, n)
  {
    if w.result.Err? {
      assert Absorb(acc, w, rows, n).failures == acc.failures + [ChunkFailure(n, w.result.error)];
    }
  }

  /** The fallback counts each failed row once: failed rows never exceed the rows submitted,
      and there is one failure per failed chunk, numbered by position, in increasing order. */
  lemma {:induction false} ChunkRunSpec(write: (Store, seq<Carelog>) -> Write, store: Store, chunks: seq<seq<Carelog>>)
    ensures Tallied(ChunkRun(write, store, chunks), |Flatten(chunks)|, |chunks|)
    decreases |chunks|
  {
    if chunks != [] {
      var init := chunks[..|chunks| - 1];
      var last := chunks[|chunks| - 1];
      ChunkRunSpec(write, store, init);
      var acc := ChunkRun(write, store, init);
      AbsorbTallied(acc, write(acc.store, last), |last|, |Flatten(init)|, |chunks|);
      assert chunks == init + [last];
      FlattenSnoc(init, last);
    }
  }

  lemma AbsorbBound(acc: Fallback, w: Write, rows: nat, before: nat, n: nat)
    requires acc.inserted + acc.failedRows <= before
    requires w.result.Ok? ==> w.result.value <= rows
    ensures var f := Absorb(acc, w, rows, n); f.inserted + f.failedRows <= before + rows
  {
  }

  /** A write that never reports more rows than it was given. */
  ghost predicate Bounded(write: (Store, seq<Carelog>) -> Write) {
    forall s, cls :: write(s, cls).result.Ok? ==> write(s, cls).result.value <= |cls|
  }

  /** With such a write the fallback accounts for every row at most once: inserted plus
      failed rows never exceed the rows submitted. */
  lemma {:induction false} ChunkRunBound(write: (Store, seq<Carelog>) -> Write, store: Store, chunks: seq<seq<Carelog>>)
    requires Bounded(write)
    ensures var f := ChunkRun(write, store, chunks); f.inserted + f.failedRows <= |Flatten(chunks)|
    decreases |chunks|
  {
    if chunks != [] {
      var init := chunks[..|chunks| - 1];
      var last := chunks[|chunks| - 1];
      ChunkRunBound(write, store, init);
      var acc := ChunkRun(write, store, init);
      AbsorbBound(acc, write(acc.store, last), |last|, |Flatten(init)|, |chunks|);
      assert chunks == init + [last];
      FlattenSnoc(init, last);
    }
  }

  /** A carelog write whose every lookup throws fails and leaves the store alone. */
  lemma CarelogWriteFails(o: Oracle, cfg: WriterConfig, le: (Value, Value) -> bool, store: Store, cls: seq<Carelog>)
    requires forall a, q :: o.queryError(a, q).Some?
    requires cls != []
    ensures CarelogWrite(o, cfg, le, store, cls).result.Err?
    ensures CarelogWrite(o, cfg, le, store, cls).store == store
  {
    var outcome := CarelogOutcomes(o, store, cls, le);
    forall a: nat ensures outcome(a).AttemptFailed? {
      assert o.queryError(a, CarelogCaregiverIds(cls)).Some?;
    }
    RetryBounds(CarelogPath, PolicyOf(cfg.retry), outcome);
  }

  lemma AbsorbFailed(acc: Fallback, w: Write, rows: nat, number: nat)
    requires w.result.Err?
    ensures var f := Absorb(acc, w, rows, number);
      f.inserted == acc.inserted && f.failedRows == acc.failedRows + rows &&
      |f.failures| == |acc.failures| + 1 && f.store == w.store
  {
  }

  /** A write that throws on every non-empty input and then leaves the store alone. */
  ghost predicate AlwaysFails(write: (Store, seq<Carelog>) -> Write) {
    forall s, cls :: cls != [] ==> write(s, cls).result.Err? && write(s, cls).store == s
  }

  /** When every chunk write throws, the fallback inserts nothing and counts every row failed,
      one failure per chunk. */
  lemma {:induction false} ChunkRunAllFail(write: (Store, seq<Carelog>) -> Write, store: Store, chunks: seq<seq<Carelog>>)
    requires AlwaysFails(write)
    requires forall i :: 0 <= i < |chunks| ==> chunks[i] != []
    ensures var f := ChunkRun(write, store, chunks);
      f.inserted == 0 && f.failedRows == |Flatten(chunks)| && |f.failures| == |chunks| && f.store == store
    decreases |chunks|
  {
    if chunks != [] {
      var n := |chunks| - 1;
      var init := chunks[..n];
      assert forall i :: 0 <= i < |init| ==> init[i] == chunks[i];
      ChunkRunAllFail(write, store, init);
      var acc := ChunkRun(write, store, init);
      AbsorbFailed(acc, write(acc.store, chunks[n]), |chunks[n]|, n + 1);
      assert chunks == init + [chunks[n]];
      FlattenSnoc(init, chunks[n]);
    }
  }

  /** With an honest database the carelog writer is bounded. */
  lemma HonestBounded(o: Oracle, cfg: WriterConfig, le: (Value, Value) -> bool)
    requires Honest(o)
    ensures Bounded(CarelogWriter(o, cfg, le))
  {
    forall s, c ensures CarelogWrite(o, cfg, le, s, c).result.Ok? ==> CarelogWrite(o, cfg, le, s, c).result.value <= |c| {
      CarelogWriteBound(o, cfg, le, s, c);
    }
  }

  /** When every lookup throws, the whole fallback of a batch inserts nothing and counts every
      row failed. */
  lemma LookupsFailChunks(o: Oracle, cfg: WriterConfig, le: (Value, Value) -> bool, store: Store, cls: seq<Carelog>)
    requires forall a, q :: o.queryError(a, q).Some?
    ensures var f := ChunkRun(CarelogWriter(o, cfg, le), store, Chunks(cls, ChunkSize(|cls|)));
      f.inserted == 0 && f.failedRows == |cls| && f.store == store
  {
    var write := CarelogWriter(o, cfg, le);
    forall s, c | c != [] ensures write(s, c).result.Err? && write(s, c).store == s {
      CarelogWriteFails(o, cfg, le, s, c);
    }
    ChunksSpec(cls, ChunkSize(|cls|));
    ChunkRunAllFail(write, store, Chunks(cls, ChunkSize(|cls|)));
  }

  // ---------------------------------------------------------------------------
  // The work of one batch (`processBatch` up to its `finally`)

  /** What `processBatch` contributes: the rows inserted and the rows and errors of failed
      chunks, or the error that made it throw. */
  datatype BatchOutcome =
    | Completed(inserted: nat, failedRows: nat, chunkFailures: seq<ChunkFailure>)
    | BatchThrew(error: StoreError)

  /** A completed batch accounts for at most its own rows. */
  predicate Fits(outcome: BatchOutcome, rows: nat) {
    outcome.Completed? ==> outcome.inserted + outcome.failedRows <= rows
  }

  /** The caregiver branch: extract the dependencies, convert the rows, write; a write that
      throws makes the batch throw. */
  method ProcessCaregiverBatch(env: Transformer.Env, o: Oracle, cfg: WriterConfig, le: (Value, Value) -> bool,
      store: Store, batch: seq<Row>) returns (outcome: BatchOutcome, after: Store)
    ensures var w := CaregiverWrite(o, cfg, le, store, Transformer.Franchisors(batch),
        Transformer.Agencies(batch), Transformer.Locations(batch), Transformer.Converted(env, batch));
      after == w.store &&
      (w.result.Ok? ==> outcome == Completed(w.result.value, 0, [])) &&
      (w.result.Err? ==> outcome == BatchThrew(w.result.error))
    ensures Honest(o) ==> Fits(outcome, |batch|)
  {
    var fs := Transformer.ExtractFranchisors(batch);
    var ags := Transformer.ExtractAgencies(batch);
    var ls := Transformer.ExtractLocations(batch);
    var caregivers, invalid := Transformer.TransformCaregivers(env, batch);
    var w := InsertCaregiversBatchWithDependencies(o, cfg, le, store, fs, ags, ls, caregivers);
    CaregiverWriteSpec(o, cfg, le, store, fs, ags, ls, caregivers);
    Transformer.ConvertedBound(env, batch);
    after := w.store;
    if w.result.Ok? {
      outcome := Completed(w.result.value, 0, []);
    } else {
      outcome := BatchThrew(w.result.error);
    }
  }

  /** The carelog branch: convert, write, and on a thrown write fall back to chunks. It never
      throws. */
  method ProcessCarelogBatch(env: Transformer.Env, o: Oracle, cfg: WriterConfig, le: (Value, Value) -> bool,
      store: Store, batch: seq<Row>) returns (outcome: BatchOutcome, after: Store)
    ensures var cls := Transformer.TransformCarelogs(env, batch);
      var w := CarelogWrite(o, cfg, le, store, cls);
      var f := ChunkRun(CarelogWriter(o, cfg, le), w.store, Chunks(cls, ChunkSize(|cls|)));
      (w.result.Ok? ==> outcome == Completed(w.result.value, 0, []) && after == w.store) &&
      (w.result.Err? ==> outcome == Completed(f.inserted, f.failedRows, f.failures) && after == f.store)
    ensures outcome.Completed?
    ensures Honest(o) ==> Fits(outcome, |batch|)
  {
    var cls := Transformer.TransformCarelogs(env, batch);
    var w := InsertCarelogsBatch(o, cfg, le, store, cls);
    if Honest(o) {
      CarelogWriteBound(o, cfg, le, store, cls);
    }
    if w.result.Ok? {
      outcome := Completed(w.result.value, 0, []);
      after := w.store;
    } else {
      var f := ChunkFallback(o, cfg, le, w.store, cls);
      if Honest(o) {
        HonestBounded(o, cfg, le);
        ChunkRunBound(CarelogWriter(o, cfg, le), w.store, Chunks(cls, ChunkSize(|cls|)));
      }
      ChunksSpec(cls, ChunkSize(|cls|));
      outcome := Completed(f.inserted, f.failedRows, f.failures);
      after := f.store;
    }
  }
}
