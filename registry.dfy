/**
 * The license registry: the `vl_licenses_registry` option, a map from key to
 * license record, cleaned on every read and every write.
 */
module Registry {

  import opened Common
  import opened Text
  import WordPress
  import LicenseKeys

  /** A record field: PHP `null` or a string. */
  datatype Value = Null | Str(s: string)

  /** One license record (`client_name`, `site`, `key`, `status`, `created`, `last_seen`, `contact_email`, ...). */
  type Record = map<string, Value>

  /** A stored entry: either an array of fields or some other PHP value. */
  datatype RawEntry = NotArray | Fields(fields: Record)

  /** The option as `get_option` returns it. */
  datatype RawStore = NotAnArray | Entries(entries: map<string, RawEntry>)

  /** `isset($r[$f]) && $r[$f] === $s`. */
  predicate HasString(r: Record, f: string, s: string) {
    f in r && r[f] == Str(s)
  }

  /** The cleaning `lic_store_get` and `lic_store_set` apply to the entry stored under `key`. */
  function CleanRecord(h: WordPress.Host, key: string, e: RawEntry): (r: Record)
    ensures HasString(r, "key", key)
    ensures forall f :: f in r <==> f == "key" || (e.Fields? && f in e.fields)
    ensures forall f :: f in r && f != "key" && f != "contact_email" ==> r[f] == e.fields[f]
    ensures "contact_email" in r ==>
      r["contact_email"] == (match e.fields["contact_email"]
                             case Null => Null
                             case Str(m) => Str(h.sanitizeEmail(m)))
  {
    var fields := if e.Fields? then e.fields else map[];
    var keyed := fields["key" := Str(key)];
    if "contact_email" in keyed && keyed["contact_email"].Str? then
      keyed["contact_email" := Str(h.sanitizeEmail(keyed["contact_email"].s))]
    else keyed
  }

  /** Whether cleaning changes the entry stored under `key`. */
  predicate EntryDirty(h: WordPress.Host, key: string, e: RawEntry) {
    || e.NotArray?
    || !HasString(e.fields, "key", key)
    || ("contact_email" in e.fields && e.fields["contact_email"].Str?
        && h.sanitizeEmail(e.fields["contact_email"].s) != e.fields["contact_email"].s)
  }

  /** The cleaned store restricted to the keys in `done`. */
  function CleanPart(h: WordPress.Host, entries: map<string, RawEntry>, done: set<string>): map<string, Record>
    requires done <= entries.Keys
  {
    map k | k in done && !LicenseKeys.IsLegacy(k) :: CleanRecord(h, k, entries[k])
  }

  /** Whether some key in `done` is dropped or has its entry changed. */
  predicate DirtyPart(h: WordPress.Host, entries: map<string, RawEntry>, done: set<string>)
    requires done <= entries.Keys
  {
    exists k | k in done :: LicenseKeys.IsLegacy(k) || EntryDirty(h, k, entries[k])
  }

  /**
   * The store `lic_store_get` returns: legacy keys dropped, every entry an
   * array whose `key` is its own map key, and every e-mail re-sanitised.
   */
  function CleanStore(h: WordPress.Host, raw: RawStore): (r: map<string, Record>)
    ensures forall k :: k in r <==> raw.Entries? && k in raw.entries && !LicenseKeys.IsLegacy(k)
    ensures forall k :: k in r ==> HasString(r[k], "key", k) && !LicenseKeys.IsLegacy(k)
  {
    if raw.NotAnArray? then map[] else CleanPart(h, raw.entries, raw.entries.Keys)
  }

  /** Whether reading the option writes it back. */
  predicate Dirty(h: WordPress.Host, raw: RawStore) {
    raw.Entries? && DirtyPart(h, raw.entries, raw.entries.Keys)
  }

  /** A cleaned store as an option value. */
  function Lift(store: map<string, Record>): (r: map<string, RawEntry>)
    ensures r.Keys == store.Keys
    ensures forall k :: k in r ==> r[k] == Fields(store[k])
  {
    map k | k in store :: Fields(store[k])
  }

  /** A store that cleaning leaves as it is. */
  ghost predicate IsClean(h: WordPress.Host, store: map<string, Record>) {
    forall k :: k in store ==>
      && !LicenseKeys.IsLegacy(k)
      && HasString(store[k], "key", k)
      && ("contact_email" in store[k] && store[k]["contact_email"].Str? ==>
            h.sanitizeEmail(store[k]["contact_email"].s) == store[k]["contact_email"].s)
  }

  /** The read path writes back exactly when cleaning changes the option. */
  lemma {:induction false} DirtyIffChanged(h: WordPress.Host, raw: RawStore)
    requires raw.Entries?
    ensures Dirty(h, raw) <==> Entries(Lift(CleanStore(h, raw))) != raw
  {
    if Dirty(h, raw) {
      DirtyChanges(h, raw);
    } else {
      NotDirtyKeeps(h, raw);
    }
  }

  lemma DirtyChanges(h: WordPress.Host, raw: RawStore)
    requires Dirty(h, raw)
    ensures Lift(CleanStore(h, raw)) != raw.entries
  {
    var c := Lift(CleanStore(h, raw));
    var k :| k in raw.entries && (LicenseKeys.IsLegacy(k) || EntryDirty(h, k, raw.entries[k]));
    if !LicenseKeys.IsLegacy(k) {
      var e := raw.entries[k];
      assert c[k] == Fields(CleanRecord(h, k, e));
      if e.Fields? && HasString(e.fields, "key", k) {
        assert CleanRecord(h, k, e)["contact_email"] != e.fields["contact_email"];
      }
    } else {
      assert k !in c;
    }
  }

  lemma NotDirtyKeeps(h: WordPress.Host, raw: RawStore)
    requires raw.Entries? && !Dirty(h, raw)
    ensures Lift(CleanStore(h, raw)) == raw.entries
  {
    var c := Lift(CleanStore(h, raw));
    forall k | k in raw.entries ensures k in c && c[k] == raw.entries[k] {
      var e := raw.entries[k];
      assert !LicenseKeys.IsLegacy(k) && !EntryDirty(h, k, e);
      CleanRecordOfClean(h, k, e.fields);
    }
  }

  /** Cleaning a clean store returns it unchanged and does not write. */
  lemma {:induction false} CleanOfClean(h: WordPress.Host, store: map<string, Record>)
    requires IsClean(h, store)
    ensures CleanStore(h, Entries(Lift(store))) == store
    ensures !Dirty(h, Entries(Lift(store)))
  {
    var raw := Entries(Lift(store));
    forall k | k in store ensures CleanRecord(h, k, raw.entries[k]) == store[k] {
      CleanRecordOfClean(h, k, store[k]);
    }
    assert CleanStore(h, raw) == store;
  }

  /** With an idempotent `sanitize_email`, the cleaned store is clean. */
  lemma {:induction false} CleanStoreIsClean(h: WordPress.Host, raw: RawStore)
    requires WordPress.EmailIdempotent(h)
    ensures IsClean(h, CleanStore(h, raw))
  {
  }

  /** Cleaning twice is cleaning once, and a second read does not write. */
  lemma {:induction false} CleanIdempotent(h: WordPress.Host, raw: RawStore)
    requires WordPress.EmailIdempotent(h)
    ensures CleanStore(h, Entries(Lift(CleanStore(h, raw)))) == CleanStore(h, raw)
    ensures !Dirty(h, Entries(Lift(CleanStore(h, raw))))
  {
    CleanStoreIsClean(h, raw);
    CleanOfClean(h, CleanStore(h, raw));
  }

  /** Setting a clean record under its own non-legacy key keeps a store clean. */
  lemma CleanInsert(h: WordPress.Host, store: map<string, Record>, k: string, r: Record)
    requires IsClean(h, store) && !LicenseKeys.IsLegacy(k) && HasString(r, "key", k)
    requires "contact_email" in r && r["contact_email"].Str? ==> h.sanitizeEmail(r["contact_email"].s) == r["contact_email"].s
    ensures IsClean(h, store[k := r])
  {
  }

  /** The `foreach` shared by `lic_store_get` and `lic_store_set`. */
  method Normalise(h: WordPress.Host, entries: map<string, RawEntry>) returns (cleaned: map<string, Record>, didUpdate: bool)
    ensures cleaned == CleanStore(h, Entries(entries))
    ensures didUpdate == Dirty(h, Entries(entries))
  {
    cleaned, didUpdate := map[], false;
    var todo := entries.Keys;
    ghost var done: set<string> := {};
    while todo != {}
      invariant todo <= entries.Keys && done == entries.Keys - todo
      invariant cleaned == CleanPart(h, entries, done)
      invariant didUpdate == DirtyPart(h, entries, done)
      decreases todo
    {
      var k :| k in todo;
      cleaned, didUpdate := NormaliseKey(h, entries, done, k, cleaned, didUpdate);
      todo := todo - {k};
      done := done + {k};
    }
    assert done == entries.Keys;
  }

  /** One turn of the `foreach`: drop a legacy key, else store the cleaned entry; note any change. */
  method NormaliseKey(h: WordPress.Host, entries: map<string, RawEntry>, ghost done: set<string>, k: string,
                      cleaned: map<string, Record>, didUpdate: bool)
    returns (cleaned': map<string, Record>, didUpdate': bool)
    requires done <= entries.Keys && k in entries && k !in done
    requires cleaned == CleanPart(h, entries, done) && didUpdate == DirtyPart(h, entries, done)
    ensures cleaned' == CleanPart(h, entries, done + {k})
    ensures didUpdate' == DirtyPart(h, entries, done + {k})
  {
    CleanPartStep(h, entries, done, k);
    DirtyPartStep(h, entries, done, k);
    if LicenseKeys.IsLegacy(k) {
      cleaned', didUpdate' := cleaned, true;
    } else {
      var data, changed := CleanEntry(h, k, entries[k]);
      cleaned', didUpdate' := cleaned[k := data], didUpdate || changed;
    }
  }

  /** The loop body for one non-legacy key: the entry as stored, and whether it changed. */
  method CleanEntry(h: WordPress.Host, k: string, e: RawEntry) returns (data: Record, changed: bool)
    ensures data == CleanRecord(h, k, e)
    ensures changed == EntryDirty(h, k, e)
  {
    changed := false;
    if e.NotArray? {
      data, changed := map[], true;
    } else {
      data := e.fields;
    }
    if !HasString(data, "key", k) {
      data, changed := data["key" := Str(k)], true;
    }
    if "contact_email" in data && data["contact_email"].Str? {
      var clean := h.sanitizeEmail(data["contact_email"].s);
      if data["contact_email"].s != clean {
        data, changed := data["contact_email" := Str(clean)], true;
      }
    }
  }

  lemma CleanPartStep(h: WordPress.Host, entries: map<string, RawEntry>, done: set<string>, k: string)
    requires done <= entries.Keys && k in entries && k !in done
    ensures CleanPart(h, entries, done + {k}) ==
      if LicenseKeys.IsLegacy(k) then CleanPart(h, entries, done)
      else CleanPart(h, entries, done)[k := CleanRecord(h, k, entries[k])]
  {
  }

  lemma DirtyPartStep(h: WordPress.Host, entries: map<string, RawEntry>, done: set<string>, k: string)
    requires done <= entries.Keys && k in entries && k !in done
    ensures DirtyPart(h, entries, done + {k}) ==
      (DirtyPart(h, entries, done) || LicenseKeys.IsLegacy(k) || EntryDirty(h, k, entries[k]))
  {
    if LicenseKeys.IsLegacy(k) || EntryDirty(h, k, entries[k]) {
      assert k in done + {k};
    }
  }

  /**
   * The `foreach ($store as $id => $row)` scan for the row whose `key` field
   * is `key`, stopping at the first one.
   */
  method FindByKeyField(store: map<string, Record>, key: string) returns (id: Option<string>)
    ensures id.Some? ==> id.value in store && HasString(store[id.value], "key", key)
    ensures id.None? <==> forall k :: k in store ==> !HasString(store[k], "key", key)
  {
    var todo := store.Keys;
    while todo != {}
      invariant todo <= store.Keys
      invariant forall k :: k in store && k !in todo ==> !HasString(store[k], "key", key)
      decreases todo
    {
      var k :| k in todo;
      if HasString(store[k], "key", key) {
        return Some(k);
      }
      todo := todo - {k};
    }
    return None;
  }

  /** In a cleaned store the scan finds the entry under `key` and nothing else. */
  lemma FindInClean(h: WordPress.Host, raw: RawStore, key: string, id: string)
    requires id in CleanStore(h, raw) && HasString(CleanStore(h, raw)[id], "key", key)
    ensures id == key
  {
  }

  /** The record `lic_create_with_key` builds. */
  function NewRecord(client: string, site: string, key: string, active: bool, email: string, now: string): (r: Record)
    ensures HasString(r, "key", key)
    ensures HasString(r, "status", if active then "active" else "inactive")
    ensures HasString(r, "contact_email", email)
  {
    map["client_name" := Str(client), "site" := Str(site), "key" := Str(key),
        "status" := Str(if active then "active" else "inactive"), "created" := Str(now),
        "last_seen" := Null, "contact_email" := Str(email)]
  }

  /** One of the licenses `maybe_create_missing_licenses` guarantees. */
  datatype Default = Default(key: string, client: string, site: string, email: string)

  const Defaults: seq<Default> := [
    Default("VL-GC5K-YKBM-BM5F", "Commonwealth Health Services", "https://commonwealthhealthservices.com", "admin@commonwealthhealthservices.com"),
    Default("VL-VYAK-9BPQ-NKCC", "Commonwealth Health Services", "https://commonwealthhealthservices.com", "admin@commonwealthhealthservices.com"),
    Default("VL-H2K3-ZFQK-DKDC", "Site Assembly", "https://siteassembly.com", "admin@siteassembly.com"),
    Default("VL-AWJJ-8J6S-GD6R", "Visible Light", "https://visiblelight.ai", "admin@visiblelight.ai")]

  /** The record the loop stores for a default license created at `now`. */
  function DefaultEntry(d: Default, now: string): Record {
    map["client_name" := Str(d.client), "site" := Str(d.site), "contact_email" := Str(d.email),
        "status" := Str("active"), "key" := Str(d.key), "created" := Str(now), "last_seen" := Null]
  }

  /** The store after the loop over `defs`: each default whose key is absent is added. */
  function AddDefaults(store: map<string, Record>, defs: seq<Default>, now: string): map<string, Record>
  {
    if defs == [] then store
    else
      var s := AddDefaults(store, defs[..|defs| - 1], now);
      var d := defs[|defs| - 1];
      if d.key in s then s else s[d.key := DefaultEntry(d, now)]
  }

  /** The keys of `defs`. */
  function DefaultKeys(defs: seq<Default>): (r: set<string>)
    ensures forall i :: 0 <= i < |defs| ==> defs[i].key in r
  {
    if defs == [] then {} else DefaultKeys(defs[..|defs| - 1]) + {defs[|defs| - 1].key}
  }

  lemma {:induction false} DefaultKeysMember(defs: seq<Default>, k: string)
    requires k in DefaultKeys(defs)
    ensures exists i :: 0 <= i < |defs| && defs[i].key == k
  {
    var init := defs[..|defs| - 1];
    if k != defs[|defs| - 1].key {
      DefaultKeysMember(init, k);
      var i :| 0 <= i < |init| && init[i].key == k;
      assert defs[i] == init[i];
    }
  }

  /** None of the default keys is a legacy key. */
  lemma DefaultsNotLegacy(k: string)
    requires k in DefaultKeys(Defaults)
    ensures !LicenseKeys.IsLegacy(k)
  {
    DefaultKeysMember(Defaults, k);
    var i :| 0 <= i < |Defaults| && Defaults[i].key == k;
    assert k[0] == 'V';
  }

  /** Adding defaults keeps every record there was. */
  lemma {:induction false} AddDefaultsKeeps(store: map<string, Record>, defs: seq<Default>, now: string)
    ensures forall k :: k in store ==> k in AddDefaults(store, defs, now) && AddDefaults(store, defs, now)[k] == store[k]
  {
    if defs != [] {
      AddDefaultsKeeps(store, defs[..|defs| - 1], now);
    }
  }

  /** After adding defaults, exactly the old keys and the default keys are present. */
  lemma {:induction false} AddDefaultsDomain(store: map<string, Record>, defs: seq<Default>, now: string)
    ensures AddDefaults(store, defs, now).Keys == store.Keys + DefaultKeys(defs)
  {
    if defs != [] {
      AddDefaultsDomain(store, defs[..|defs| - 1], now);
    }
  }

  /** A record the defaults added is active, keyed by itself, created at `now` and never seen. */
  lemma {:induction false} AddDefaultsAdded(store: map<string, Record>, defs: seq<Default>, now: string, k: string)
    requires k in AddDefaults(store, defs, now) && k !in store
    ensures var r := AddDefaults(store, defs, now)[k];
      HasString(r, "key", k) && HasString(r, "status", "active") && HasString(r, "created", now)
      && "last_seen" in r && r["last_seen"] == Null && "contact_email" in r && r["contact_email"].Str?
  {
    var init := defs[..|defs| - 1];
    if k in AddDefaults(store, init, now) {
      AddDefaultsAdded(store, init, now, k);
    }
  }

  /** Writing the defaults over a clean store keeps the old keys and adds the default ones. */
  lemma DefaultsStoredDomain(h: WordPress.Host, store: map<string, Record>, defs: seq<Default>, now: string, k: string)
    requires IsClean(h, store)
    requires k in DefaultKeys(defs) ==> !LicenseKeys.IsLegacy(k)
    ensures k in CleanStore(h, Entries(Lift(AddDefaults(store, defs, now)))) <==> k in store || k in DefaultKeys(defs)
  {
    AddDefaultsDomain(store, defs, now);
    CleanLiftAt(h, AddDefaults(store, defs, now), k);
  }

  /** Writing the defaults over a clean store leaves every old record as it was. */
  lemma DefaultsStoredKeeps(h: WordPress.Host, store: map<string, Record>, defs: seq<Default>, now: string, k: string)
    requires IsClean(h, store) && k in store
    ensures var r := CleanStore(h, Entries(Lift(AddDefaults(store, defs, now))));
      k in r && r[k] == store[k]
  {
    var m := AddDefaults(store, defs, now);
    AddDefaultsKeeps(store, defs, now);
    assert m[k] == store[k];
    CleanLiftAt(h, m, k);
    CleanRecordOfClean(h, k, store[k]);
  }

  /** Cleaning leaves a record keyed by `k` with a clean e-mail as it is. */
  lemma CleanRecordOfClean(h: WordPress.Host, k: string, r: Record)
    requires HasString(r, "key", k)
    requires "contact_email" in r && r["contact_email"].Str? ==> h.sanitizeEmail(r["contact_email"].s) == r["contact_email"].s
    ensures CleanRecord(h, k, Fields(r)) == r
  {
  }

  /** A record the defaults added is stored active, created at `now` and never seen. */
  lemma DefaultsStoredAdded(h: WordPress.Host, store: map<string, Record>, defs: seq<Default>, now: string, k: string)
    requires k in CleanStore(h, Entries(Lift(AddDefaults(store, defs, now)))) && k !in store
    ensures var r := CleanStore(h, Entries(Lift(AddDefaults(store, defs, now))))[k];
      HasString(r, "status", "active") && HasString(r, "created", now) && "last_seen" in r && r["last_seen"] == Null
  {
    CleanLiftAt(h, AddDefaults(store, defs, now), k);
    AddDefaultsAdded(store, defs, now, k);
  }

  /** The cleaned record under a non-legacy key of a lifted store. */
  lemma CleanLiftAt(h: WordPress.Host, m: map<string, Record>, k: string)
    ensures k in CleanStore(h, Entries(Lift(m))) <==> k in m && !LicenseKeys.IsLegacy(k)
    ensures k in m && !LicenseKeys.IsLegacy(k) ==> CleanStore(h, Entries(Lift(m)))[k] == CleanRecord(h, k, Fields(m[k]))
  {
  }

  /**
   * What readers see after `maybe_create_missing_licenses` writes over a
   * clean store: the old records untouched, every default key present, and
   * each added record active, keyed by itself, created at `now` and never seen.
   */
  lemma MissingLicensesStored(h: WordPress.Host, store: map<string, Record>, now: string, k: string)
    requires IsClean(h, store)
    ensures var r := CleanStore(h, Entries(Lift(AddDefaults(store, Defaults, now))));
      && (k in r <==> k in store || k in DefaultKeys(Defaults))
      && (k in store ==> r[k] == store[k])
      && (k in r && k !in store ==>
            HasString(r[k], "status", "active") && HasString(r[k], "created", now)
            && "last_seen" in r[k] && r[k]["last_seen"] == Null)
  {
    if k in DefaultKeys(Defaults) {
      DefaultsNotLegacy(k);
    }
    DefaultsStoredDomain(h, store, Defaults, now, k);
    if k in store {
      DefaultsStoredKeeps(h, store, Defaults, now, k);
    } else if k in CleanStore(h, Entries(Lift(AddDefaults(store, Defaults, now)))) {
      DefaultsStoredAdded(h, store, Defaults, now, k);
    }
  }

  class LicenseRegistry {
    /** The sanitisers of the hosting WordPress install. */
    const host: WordPress.Host
    /** The `vl_licenses_registry` option. */
    var option: RawStore
    /** The `vl_last_license_check` option (seconds). */
    var lastCheck: int

    /** `sanitize_email` is taken to be idempotent, as WordPress's is. */
    ghost predicate Valid()
      reads this
    {
      WordPress.EmailIdempotent(host)
    }

    /** The registry as every reader sees it. */
    function Records(): map<string, Record>
      reads this
    {
      CleanStore(host, option)
    }

    constructor(host: WordPress.Host, option: RawStore, lastCheck: int)
      requires WordPress.EmailIdempotent(host)
      ensures Valid()
      ensures this.host == host && this.option == option && this.lastCheck == lastCheck
    {
      this.host := host;
      this.option := option;
      this.lastCheck := lastCheck;
    }

    /** `lic_store_get`: the cleaned store, written back only when cleaning changed it. */
    method Get() returns (store: map<string, Record>)
      requires Valid()
      modifies this
      ensures Valid() && lastCheck == old(lastCheck)
      ensures store == old(Records()) && Records() == store
      ensures option == if old(Dirty(host, option)) then Entries(Lift(store)) else old(option)
      ensures IsClean(host, store)
    {
      if option.NotAnArray? {
        return map[];
      }
      var didUpdate;
      store, didUpdate := Normalise(host, option.entries);
      CleanIdempotent(host, option);
      if didUpdate {
        option := Entries(Lift(store));
      }
    }

    /** `lic_store_set`: clean `list` and always write it. */
    method Set(list: RawStore)
      requires Valid()
      modifies this
      ensures Valid() && lastCheck == old(lastCheck)
      ensures Records() == CleanStore(host, list)
      ensures option == Entries(Lift(CleanStore(host, list)))
    {
      var entries := if list.Entries? then list.entries else map[];
      var cleaned, _ := Normalise(host, entries);
      CleanIdempotent(host, list);
      option := Entries(Lift(cleaned));
    }

    /** Write a store that is already clean; readers then see exactly it. */
    method Put(store: map<string, Record>)
      requires Valid() && IsClean(host, store)
      modifies this
      ensures Valid() && lastCheck == old(lastCheck)
      ensures Records() == store
    {
      CleanOfClean(host, store);
      Set(Entries(Lift(store)));
    }

    /**
     * `lic_create_with_key`: a legacy key is discarded for a generated one;
     * the record is stored under its key, replacing any record there.
     */
    method CreateWithKey(client: string, site: string, key: string, active: bool, email: string,
                         draws: seq<LicenseKeys.Draw>, now: string) returns (license: Record)
      requires Valid() && |draws| == 12
      modifies this
      ensures Valid() && lastCheck == old(lastCheck)
      ensures "key" in license && license["key"].Str? && !LicenseKeys.IsLegacy(license["key"].s)
      ensures !LicenseKeys.IsLegacy(key) ==> license["key"] == Str(key)
      ensures LicenseKeys.IsLegacy(key) ==> LicenseKeys.IsCanonical(license["key"].s)
      ensures license == NewRecord(client, site, license["key"].s, active, host.sanitizeEmail(email), now)
      ensures Records() == old(Records())[license["key"].s := license]
    {
      var k := key;
      if LicenseKeys.IsLegacy(k) {
        k := LicenseKeys.GenerateKey(draws);
      }
      var clean := host.sanitizeEmail(email);
      license := NewRecord(client, site, k, active, clean, now);
      Insert(k, license);
    }

    /** Read the store, set the record under `k` and write the store back. */
    method Insert(k: string, license: Record)
      requires Valid() && !LicenseKeys.IsLegacy(k) && HasString(license, "key", k)
      requires "contact_email" in license && license["contact_email"].Str? ==>
        host.sanitizeEmail(license["contact_email"].s) == license["contact_email"].s
      modifies this
      ensures Valid() && lastCheck == old(lastCheck)
      ensures Records() == old(Records())[k := license]
    {
      var store := Get();
      CleanInsert(host, store, k, license);
      store := store[k := license];
      Put(store);
    }

    /** `lic_create`: a fresh generated key, stored as an inactive record. */
    method Create(client: string, site: string, email: string, draws: seq<LicenseKeys.Draw>, now: string)
      returns (license: Record)
      requires Valid() && |draws| == 12
      modifies this
      ensures Valid() && lastCheck == old(lastCheck)
      ensures "key" in license && license["key"].Str? && LicenseKeys.IsCanonical(license["key"].s)
      ensures "status" in license && license["status"] == Str("inactive")
      ensures Records() == old(Records())[license["key"].s := license]
    {
      var k := LicenseKeys.GenerateKey(draws);
      license := CreateWithKey(client, site, k, false, email, draws, now);
    }

    /**
     * `lic_lookup_by_key`: nothing for a legacy key (without reading the
     * option), else the record under `key`.
     */
    method LookupByKey(key: string) returns (r: Option<Record>)
      requires Valid()
      modifies this
      ensures Valid() && lastCheck == old(lastCheck) && Records() == old(Records())
      ensures LicenseKeys.IsLegacy(key) ==> r.None? && option == old(option)
      ensures !LicenseKeys.IsLegacy(key) ==> r == if key in Records() then Some(Records()[key]) else None
    {
      if LicenseKeys.IsLegacy(key) {
        return None;
      }
      var store := Get();
      if key in store {
        return Some(store[key]);
      }
      var id := FindByKeyField(store, key);
      if id.Some? {
        FindInClean(host, old(option), key, id.value);
        assert false;
      }
      return None;
    }

    /**
     * `maybe_create_missing_licenses`: at most once a day, add each of the
     * four default licenses that the store lacks (`MissingLicensesStored`
     * says what readers then see).
     */
    method MaybeCreateMissingLicenses(time: int, now: string)
      requires Valid()
      modifies this
      ensures Valid()
      ensures time - old(lastCheck) < 86400 ==> option == old(option) && lastCheck == old(lastCheck)
      ensures time - old(lastCheck) >= 86400 ==>
        lastCheck == time && Records() == CleanStore(host, Entries(Lift(AddDefaults(old(Records()), Defaults, now))))
    {
      if time - lastCheck < 86400 {
        return;
      }
      lastCheck := time;
      var store := Get();
      var updated := false;
      var i := 0;
      while i < |Defaults|
        invariant 0 <= i <= |Defaults|
        invariant Valid() && Records() == old(Records()) && lastCheck == time && IsClean(host, old(Records()))
        invariant store == AddDefaults(old(Records()), Defaults[..i], now)
        invariant !updated ==> store == old(Records())
      {
        var d := Defaults[i];
        assert Defaults[..i + 1][..i] == Defaults[..i];
        if d.key !in store {
          store := store[d.key := DefaultEntry(d, now)];
          updated := true;
        }
        i := i + 1;
      }
      assert Defaults[..i] == Defaults;
      if updated {
        Set(Entries(Lift(store)));
      } else {
        CleanOfClean(host, store);
      }
    }
  }
}
