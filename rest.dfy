/** The license REST endpoints a client site calls: activation and heartbeat. */
module Rest {

  import opened Common
  import opened Text
  import WordPress
  import Registry

  /** The reply body and HTTP status of a REST handler. */
  datatype Reply = Reply(status: nat, ok: bool, error: string, license: Option<string>)

  /** `(string) $request->get_param($name)`: an absent parameter reads as "". */
  function Param(params: map<string, string>, name: string): string {
    if name in params then params[name] else ""
  }

  /** The trimmed `license` parameter both handlers start from. */
  function LicenseParam(params: map<string, string>): string {
    Trim(Param(params, "license"), PhpSpace)
  }

  /** What a heartbeat writes into the matched record. */
  function Stamped(r: Registry.Record, now: string): Registry.Record {
    r["last_seen" := Registry.Str(now)]["status" := Registry.Str("active")]
  }

  /** What an activation writes into the matched record. */
  function Activated(r: Registry.Record, now: string, site: string, name: string, wpv: string, pv: string): Registry.Record {
    r["last_seen" := Registry.Str(now)]["site" := Registry.Str(site)]["site_name" := Registry.Str(name)]
     ["wp_version" := Registry.Str(wpv)]["plugin_version" := Registry.Str(pv)]["status" := Registry.Str("active")]
  }

  /** The fields an activation writes. */
  const ActivationFields: set<string> := {"last_seen", "site", "site_name", "wp_version", "plugin_version", "status"}

  /** `a` holds field `f` exactly as `r` does. */
  predicate KeepsField(r: Registry.Record, a: Registry.Record, f: string) {
    (f in a <==> f in r) && (f in r ==> a[f] == r[f])
  }

  /** A heartbeat makes the record active and seen at `now`, and touches no other field. */
  lemma StampedFields(r: Registry.Record, now: string)
    ensures Registry.HasString(Stamped(r, now), "status", "active")
    ensures Registry.HasString(Stamped(r, now), "last_seen", now)
    ensures forall f :: f != "last_seen" && f != "status" ==> KeepsField(r, Stamped(r, now), f)
    ensures KeepsField(r, Stamped(r, now), "key") && KeepsField(r, Stamped(r, now), "contact_email")
  {
  }

  /**
   * An activation makes the record active, seen at `now`, and records the
   * site, its name and both versions; every other field stays as it was.
   */
  lemma ActivatedFields(r: Registry.Record, now: string, site: string, name: string, wpv: string, pv: string)
    ensures var a := Activated(r, now, site, name, wpv, pv);
      && Registry.HasString(a, "status", "active") && Registry.HasString(a, "last_seen", now)
      && Registry.HasString(a, "site", site) && Registry.HasString(a, "site_name", name)
      && Registry.HasString(a, "wp_version", wpv) && Registry.HasString(a, "plugin_version", pv)
    ensures var a := Activated(r, now, site, name, wpv, pv);
      (forall f :: f !in ActivationFields ==> KeepsField(r, a, f))
      && KeepsField(r, a, "key") && KeepsField(r, a, "contact_email")
  {
  }

  /** Neither handler writes `key` or `contact_email`, so a clean store stays clean. */
  lemma StampKeepsClean(h: WordPress.Host, store: map<string, Registry.Record>, k: string, r: Registry.Record)
    requires Registry.IsClean(h, store) && k in store
    requires KeepsField(store[k], r, "key") && KeepsField(store[k], r, "contact_email")
    ensures Registry.IsClean(h, store[k := r])
  {
    assert store[k] == store[k];
    Registry.CleanInsert(h, store, k, r);
  }

  /**
   * The key a request names is found (by the `key` field, as the handlers
   * search) exactly when the registry holds a record under that key.
   */
  method FindLicense(reg: Registry.LicenseRegistry, license: string) returns (store: map<string, Registry.Record>, found: Option<string>)
    requires reg.Valid()
    modifies reg
    ensures reg.Valid() && reg.lastCheck == old(reg.lastCheck) && reg.Records() == old(reg.Records())
    ensures store == old(reg.Records()) && Registry.IsClean(reg.host, store)
    ensures license in store ==> found == Some(license)
    ensures license !in store ==> found.None?
  {
    store := reg.Get();
    found := Registry.FindByKeyField(store, license);
    if found.Some? {
      Registry.FindInClean(reg.host, old(reg.option), license, found.value);
    }
  }

  /** The parameters of an activation, read and sanitised as the handler does. */
  datatype Activation = Activation(license: string, site: string, name: string, wpv: string, pv: string)

  function ReadActivation(h: WordPress.Host, params: map<string, string>): Activation {
    Activation(LicenseParam(params), h.escUrlRaw(Param(params, "site_url")), h.sanitizeText(Param(params, "site_name")),
               h.sanitizeText(Param(params, "wp_version")), h.sanitizeText(Param(params, "plugin_version")))
  }

  /**
   * `rest_activate_license`: 400 without a license or a site, 404 when no
   * record carries the license as its key, otherwise the record is stamped
   * with the reporting site and made active, and nothing else changes.
   */
  method ActivateLicense(reg: Registry.LicenseRegistry, params: map<string, string>, now: string) returns (reply: Reply)
    requires reg.Valid()
    modifies reg
    ensures reg.Valid() && reg.lastCheck == old(reg.lastCheck)
    ensures var a := ReadActivation(reg.host, params);
      (PhpEmpty(a.license) || PhpEmpty(a.site)) ==>
        reply == Reply(400, false, "missing_params", None) && reg.option == old(reg.option)
    ensures var a := ReadActivation(reg.host, params);
      !PhpEmpty(a.license) && !PhpEmpty(a.site) && a.license !in old(reg.Records()) ==>
        reply == Reply(404, false, "license_not_found", None) && reg.Records() == old(reg.Records())
    ensures var a := ReadActivation(reg.host, params);
      !PhpEmpty(a.license) && !PhpEmpty(a.site) && a.license in old(reg.Records()) ==>
        && reply == Reply(200, true, "", Some(a.license))
        && reg.Records() == old(reg.Records())[a.license :=
             Activated(old(reg.Records())[a.license], now, a.site, a.name, a.wpv, a.pv)]
  {
    var a := ReadActivation(reg.host, params);
    if PhpEmpty(a.license) || PhpEmpty(a.site) {
      return Reply(400, false, "missing_params", None);
    }
    var store, found := FindLicense(reg, a.license);
    if found.None? || PhpEmpty(found.value) {
      return Reply(404, false, "license_not_found", None);
    }
    var id := found.value;
    var updated := Activated(store[id], now, a.site, a.name, a.wpv, a.pv);
    ActivatedFields(store[id], now, a.site, a.name, a.wpv, a.pv);
    StampKeepsClean(reg.host, store, id, updated);
    reg.Put(store[id := updated]);
    return Reply(200, true, "", Some(id));
  }

  /**
   * `rest_license_heartbeat`: 400 without a license, 404 when no record
   * carries it, otherwise the record is marked active and seen now.
   */
  method LicenseHeartbeat(reg: Registry.LicenseRegistry, params: map<string, string>, now: string) returns (reply: Reply)
    requires reg.Valid()
    modifies reg
    ensures reg.Valid() && reg.lastCheck == old(reg.lastCheck)
    ensures PhpEmpty(LicenseParam(params)) ==>
      reply == Reply(400, false, "missing_license", None) && reg.option == old(reg.option)
    ensures var license := LicenseParam(params);
      !PhpEmpty(license) && license !in old(reg.Records()) ==>
        reply == Reply(404, false, "license_not_found", None) && reg.Records() == old(reg.Records())
    ensures var license := LicenseParam(params);
      !PhpEmpty(license) && license in old(reg.Records()) ==>
        && reply == Reply(200, true, "", None)
        && reg.Records() == old(reg.Records())[license := Stamped(old(reg.Records())[license], now)]
  {
    var license := LicenseParam(params);
    if PhpEmpty(license) {
      return Reply(400, false, "missing_license", None);
    }
    var store, found := FindLicense(reg, license);
    if found.None? || PhpEmpty(found.value) {
      return Reply(404, false, "license_not_found", None);
    }
    var id := found.value;
    var updated := Stamped(store[id], now);
    StampedFields(store[id], now);
    StampKeepsClean(reg.host, store, id, updated);
    reg.Put(store[id := updated]);
    return Reply(200, true, "", None);
  }
}
