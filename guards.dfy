/**
 * The per-request guards: silent sign-on from a license in the request,
 * console protection, the login redirect ladder and the bounces that send
 * signed-in clients to their dashboard.
 */
module Guards {

  import opened Common
  import opened Text
  import WordPress
  import LicenseKeys
  import Registry
  import Urls
  import Users

  /** `get_user_meta($id, $key, true)`: the value, or `''` when there is none. */
  function MetaOr(u: Users.User, key: string): string {
    if key in u.meta then u.meta[key] else ""
  }

  /** The key a user has stored: `vl_license_key`, else `license_key`. */
  function StoredKey(u: Users.User): (k: string)
    ensures k == MetaOr(u, Users.LicenseMeta) || k == MetaOr(u, Users.LegacyLicenseMeta)
    ensures !PhpEmpty(MetaOr(u, Users.LicenseMeta)) ==> k == MetaOr(u, Users.LicenseMeta)
  {
    if !PhpEmpty(MetaOr(u, Users.LicenseMeta)) then MetaOr(u, Users.LicenseMeta) else MetaOr(u, Users.LegacyLicenseMeta)
  }

  /** Both `delete_user_meta` calls for a legacy key. */
  function DropLicenseMeta(u: Users.User): (v: Users.User)
    ensures Users.LicenseMeta !in v.meta && Users.LegacyLicenseMeta !in v.meta
    ensures forall f :: f in v.meta <==> f in u.meta && f != Users.LicenseMeta && f != Users.LegacyLicenseMeta
    ensures v.(meta := u.meta) == u
  {
    u.(meta := u.meta - {Users.LicenseMeta, Users.LegacyLicenseMeta})
  }

  /** A record whose `status` is unset, null or `active`. */
  predicate StatusAllows(r: Registry.Record) {
    !("status" in r && r["status"].Str?) || r["status"] == Registry.Str("active")
  }

  /**
   * The user both console guards sign in for `license`, if any: the license
   * must be non-empty and not legacy, its record must exist and allow
   * sign-on, and the first user bound to it must be a client.
   */
  function SignOnTarget(records: map<string, Registry.Record>, users: seq<Users.User>, license: string): (r: Option<nat>)
    ensures r.Some? ==> r.value < |users| && Users.ClientRole in users[r.value].roles
  {
    if PhpEmpty(license) || LicenseKeys.IsLegacy(license) then None
    else if license !in records || !StatusAllows(records[license]) then None
    else
      match Users.FindUserByLicense(users, license)
      case None => None
      case Some(i) => if Users.ClientRole in users[i].roles then Some(i) else None
  }

  /** Sign-on happens exactly when every condition holds, and then for the first bound user. */
  lemma SignOnConditions(records: map<string, Registry.Record>, users: seq<Users.User>, license: string, i: nat)
    ensures SignOnTarget(records, users, license) == Some(i) <==>
      && !PhpEmpty(license) && !LicenseKeys.IsLegacy(license)
      && license in records && StatusAllows(records[license])
      && Users.FindUserByLicense(users, license) == Some(i)
  {
  }

  /**
   * The license key `filter_login_redirect` settles on for a client: a stored
   * non-legacy key, else one read from the requested URL, else one from the
   * request's `license` argument; `''` when none qualifies.
   */
  function DiscoveredKey(h: WordPress.Host, stored: string, requested: string, request: map<string, string>): (k: string)
    ensures k == "" || (!PhpEmpty(k) && !LicenseKeys.IsLegacy(k))
    ensures !PhpEmpty(stored) && !LicenseKeys.IsLegacy(stored) ==> k == stored
  {
    var kept := if !PhpEmpty(stored) && LicenseKeys.IsLegacy(stored) then "" else stored;
    var guessed := if !PhpEmpty(requested) then Urls.LicenseFromUrl(h, requested) else "";
    var param := if "license" in request then h.sanitizeText(request["license"]) else "";
    if !PhpEmpty(kept) then kept
    else if !PhpEmpty(guessed) && !LicenseKeys.IsLegacy(guessed) then guessed
    else if !PhpEmpty(param) && !LicenseKeys.IsLegacy(param) then param
    else ""
  }

  /**
   * The client's user after the meta updates of `filter_login_redirect`. A
   * usable stored key leaves the user as it is. Otherwise a legacy stored
   * key loses both license meta fields, and a key discovered in the
   * requested URL or the request is written to `vl_license_key`. No other
   * field and no other meta entry changes.
   */
  function SettledUser(h: WordPress.Host, u: Users.User, requested: string, request: map<string, string>): (v: Users.User)
    ensures v.(meta := u.meta) == u
    ensures forall f :: f != Users.LicenseMeta && f != Users.LegacyLicenseMeta ==>
      (f in v.meta <==> f in u.meta) && (f in u.meta ==> v.meta[f] == u.meta[f])
    ensures var stored := StoredKey(u);
      var k := DiscoveredKey(h, stored, requested, request);
      var drop := !PhpEmpty(stored) && LicenseKeys.IsLegacy(stored);
      && (!PhpEmpty(stored) && !LicenseKeys.IsLegacy(stored) ==> v == u)
      && (drop ==> Users.LegacyLicenseMeta !in v.meta)
      && (!drop ==> (Users.LegacyLicenseMeta in v.meta <==> Users.LegacyLicenseMeta in u.meta)
                    && (Users.LegacyLicenseMeta in u.meta ==> v.meta[Users.LegacyLicenseMeta] == u.meta[Users.LegacyLicenseMeta]))
      && ((PhpEmpty(stored) || drop) && k != "" ==> Users.LicenseMeta in v.meta && v.meta[Users.LicenseMeta] == k)
      && (drop && k == "" ==> Users.LicenseMeta !in v.meta)
      && (!drop && k == "" ==> (Users.LicenseMeta in v.meta <==> Users.LicenseMeta in u.meta)
                               && (Users.LicenseMeta in u.meta ==> v.meta[Users.LicenseMeta] == u.meta[Users.LicenseMeta]))
  {
    var stored := StoredKey(u);
    var dropped := if !PhpEmpty(stored) && LicenseKeys.IsLegacy(stored) then DropLicenseMeta(u) else u;
    var k := DiscoveredKey(h, stored, requested, request);
    if k == "" || k == stored then dropped
    else dropped.(meta := dropped.meta[Users.LicenseMeta := k])
  }

  /** Settling a legacy stored key leaves no legacy key in either license meta field. */
  lemma SettledHasNoLegacyKey(h: WordPress.Host, u: Users.User, requested: string, request: map<string, string>)
    requires !PhpEmpty(StoredKey(u)) && LicenseKeys.IsLegacy(StoredKey(u))
    ensures var v := SettledUser(h, u, requested, request);
      && Users.LegacyLicenseMeta !in v.meta
      && (Users.LicenseMeta in v.meta ==> !PhpEmpty(v.meta[Users.LicenseMeta]) && !LicenseKeys.IsLegacy(v.meta[Users.LicenseMeta]))
  {
  }

  /**
   * The console branch of `filter_login_redirect` re-reads the key of the
   * requested URL only when no key settled; by then that key has already
   * been read and rejected, so the branch never stores anything.
   */
  lemma ConsoleClaimNeverStores(h: WordPress.Host, stored: string, requested: string, request: map<string, string>)
    requires !PhpEmpty(requested) && PhpEmpty(DiscoveredKey(h, stored, requested, request))
    ensures var guess := Urls.LicenseFromUrl(h, requested);
      PhpEmpty(guess) || LicenseKeys.IsLegacy(guess)
  {
  }

  /** The requested URL is non-empty and targets the console. */
  predicate RequestsConsole(requested: string) {
    !PhpEmpty(requested) && Urls.UrlTargetsConsole(requested)
  }

  /** Where a client with settled key `k` is sent when no console URL was requested. */
  function ClientLanding(k: string): (url: string)
    ensures url == Urls.DashboardBase || exists t :: url == Urls.DashboardLink(t) && !LicenseKeys.IsLegacy(t)
  {
    if PhpEmpty(k) || LicenseKeys.IsLegacy(k) then Urls.DashboardBase else Urls.DashboardLink(k)
  }

  /** Write `claimed`, if any, into the `vl_license_key` meta of user `i`. */
  function Claim(users: seq<Users.User>, i: nat, claimed: Option<string>): (r: seq<Users.User>)
    requires i < |users|
    ensures |r| == |users|
    ensures claimed.None? ==> r == users
  {
    if claimed.None? then users else users[i := users[i].(meta := users[i].meta[Users.LicenseMeta := claimed.value])]
  }

  /** A response of a guard: carry on, or redirect and stop. */
  datatype Response = Continue | Redirect(url: string)

  /** The actions of `wp-login.php` a signed-in client may still use. */
  const LoginActions: set<string> := {"logout", "lostpassword", "retrievepassword", "rp", "resetpass", "register", "confirmaction"}

  class Site {
    const registry: Registry.LicenseRegistry
    const directory: Users.UserDirectory
    /** `$_SERVER['REQUEST_URI']`. */
    const uri: Option<string>
    /** `$_REQUEST`, unslashed. */
    const request: map<string, string>
    /** `is_admin()`. */
    const isAdmin: bool
    /** `is_page(['ai-constellation-dashboard', 'ai-constellation-console'])`. */
    const onConsolePage: bool
    /** `is_page('supercluster-login')`. */
    const onLoginPage: bool
    /** `home_url()`, without a trailing slash. */
    const home: string
    /** `$_GET`, unslashed; the guards rewrite its `license` slot. */
    var get: map<string, string>
    /** The signed-in user (`wp_set_current_user`), as an index into the directory. */
    var current: Option<nat>
    /** Every automatic sign-on (`wp_set_auth_cookie` and `wp_login`), in order. */
    var signIns: seq<nat>

    constructor(registry: Registry.LicenseRegistry, directory: Users.UserDirectory, uri: Option<string>,
                request: map<string, string>, get: map<string, string>, isAdmin: bool, onConsolePage: bool,
                onLoginPage: bool, home: string, current: Option<nat>)
      ensures this.registry == registry && this.directory == directory && this.uri == uri
      ensures this.request == request && this.get == get && this.isAdmin == isAdmin
      ensures this.onConsolePage == onConsolePage && this.onLoginPage == onLoginPage && this.home == home
      ensures this.current == current && signIns == []
    {
      this.registry := registry;
      this.directory := directory;
      this.uri := uri;
      this.request := request;
      this.get := get;
      this.isAdmin := isAdmin;
      this.onConsolePage := onConsolePage;
      this.onLoginPage := onLoginPage;
      this.home := home;
      this.current := current;
      signIns := [];
    }

    ghost predicate Valid()
      reads this, registry, directory
    {
      && registry.Valid()
      && (current.Some? ==> current.value < |directory.users|)
    }

    function Host(): WordPress.Host {
      registry.host
    }

    function Req(): Urls.Request
      reads this
    {
      Urls.Request(get, uri)
    }

    /** `is_console_page_context`. */
    predicate IsConsolePageContext() {
      onConsolePage || (uri.Some? && !PhpEmpty(uri.value) && Urls.UrlTargetsConsole(uri.value))
    }

    /** Sign `i` in: the current user, one more auth cookie and `wp_login`. */
    method SignIn(i: nat)
      requires i < |directory.users|
      modifies this
      ensures current == Some(i) && signIns == old(signIns) + [i] && get == old(get)
    {
      current := Some(i);
      signIns := signIns + [i];
    }

    /** Look `license` up and pick the user to sign in, as both console guards do. */
    method FindSignOn(license: string) returns (target: Option<nat>)
      requires Valid() && !PhpEmpty(license) && !LicenseKeys.IsLegacy(license)
      modifies registry
      ensures Valid() && registry.Records() == old(registry.Records())
      ensures target == SignOnTarget(registry.Records(), directory.users, license)
    {
      var record := registry.LookupByKey(license);
      if record.None? || !StatusAllows(record.value) {
        return None;
      }
      var user := Users.FindUserByLicense(directory.users, license);
      if user.Some? && Users.ClientRole in directory.users[user.value].roles {
        return user;
      }
      return None;
    }

    /**
     * `maybe_bootstrap_console_session`: for a signed-out, non-admin console
     * request carrying a usable license, sign its client in (at most once),
     * after copying the license into `$_GET['license']` when it came from
     * elsewhere; on any failure nothing changes.
     */
    method MaybeBootstrapConsoleSession()
      requires Valid()
      modifies this, registry
      ensures Valid() && registry.Records() == old(registry.Records())
      ensures var ext := Urls.RequestLicense(Host(), old(Req()));
        var target :=
          if isAdmin || old(current).Some? || !Urls.IsConsoleRequest(old(Req())) then None
          else SignOnTarget(old(registry.Records()), directory.users, ext.license);
        && (target.None? ==> current == old(current) && signIns == old(signIns) && get == old(get))
        && (target.Some? ==>
              && current == target && signIns == old(signIns) + [target.value]
              && get == if ext.source == Urls.FromLicense then old(get) else old(get)["license" := ext.license])
    {
      if isAdmin || current.Some? {
        return;
      }
      if !Urls.IsConsoleRequest(Req()) {
        return;
      }
      var ext := Urls.RequestLicense(Host(), Req());
      var license := ext.license;
      if PhpEmpty(license) || LicenseKeys.IsLegacy(license) {
        return;
      }
      var target := FindSignOn(license);
      if target.None? {
        return;
      }
      if ext.source != Urls.FromLicense {
        get := get["license" := license];
      }
      SignIn(target.value);
    }

    /**
     * `protect_console`: on a console page, a request without a usable
     * license goes to the public site; otherwise the license is copied into
     * `$_GET['license']`, a signed-in viewer passes, a signed-out one is signed
     * in as its client, and failing that is sent to the login page.
     */
    method ProtectConsole() returns (resp: Response)
      requires Valid()
      modifies this, registry
      ensures Valid() && registry.Records() == old(registry.Records())
      ensures |signIns| <= |old(signIns)| + 1
      ensures !IsConsolePageContext() ==> resp == Continue && get == old(get) && signIns == old(signIns) && current == old(current)
      ensures var ext := Urls.RequestLicense(Host(), old(Req()));
        IsConsolePageContext() ==>
          if PhpEmpty(ext.license) || LicenseKeys.IsLegacy(ext.license) then
            resp == Redirect(Urls.DashboardBase) && get == old(get) && signIns == old(signIns) && current == old(current)
          else
            && get == (if ext.source == Urls.FromLicense then old(get) else old(get)["license" := ext.license])
            && (old(current).Some? ==> resp == Continue && signIns == old(signIns) && current == old(current))
            && (old(current).None? ==>
                  match SignOnTarget(old(registry.Records()), directory.users, ext.license)
                  case Some(i) => resp == Continue && current == Some(i) && signIns == old(signIns) + [i]
                  case None => resp == Redirect(home + "/supercluster-login/") && signIns == old(signIns) && current.None?)
    {
      if !IsConsolePageContext() {
        return Continue;
      }
      var ext := Urls.RequestLicense(Host(), Req());
      var license := ext.license;
      if PhpEmpty(license) || LicenseKeys.IsLegacy(license) {
        return Redirect(Urls.DashboardBase);
      }
      if ext.source != Urls.FromLicense {
        get := get["license" := license];
      }
      if current.Some? {
        return Continue;
      }
      var target := FindSignOn(license);
      if target.Some? {
        SignIn(target.value);
        return Continue;
      }
      return Redirect(home + "/supercluster-login/");
    }

    /** Replace user `i` in the directory. */
    method PutUser(i: nat, u: Users.User)
      requires i < |directory.users|
      modifies directory
      ensures directory.users == old(directory.users)[i := u]
    {
      directory.users := directory.users[i := u];
    }

    /**
     * `filter_login_redirect`. A stored key grants the client role; a user
     * who is still not a client gets the requested URL or the default. A
     * legacy stored key is deleted; a key found in the requested URL or the
     * request is stored in `vl_license_key` when it is not legacy. A
     * requested console URL is honoured; otherwise the client lands on the
     * dashboard for the settled key, or on the public site without one.
     */
    method FilterLoginRedirect(redirectTo: string, requested: string, user: Option<nat>) returns (url: string)
      requires Valid() && (user.Some? ==> user.value < |directory.users|)
      modifies registry, directory
      ensures Valid() && registry.Records() == old(registry.Records()) && |directory.users| == |old(directory.users)|
      ensures user.None? ==> url == redirectTo && directory.users == old(directory.users)
      ensures user.Some? ==>
        var u0 := old(directory.users)[user.value];
        var stored := StoredKey(u0);
        var u1 := if !PhpEmpty(stored) then u0.(roles := u0.roles + {Users.ClientRole}) else u0;
        && (Users.ClientRole !in u1.roles ==>
              url == (if !PhpEmpty(requested) then requested else redirectTo) && directory.users == old(directory.users))
        && (Users.ClientRole in u1.roles ==>
              && directory.users == old(directory.users)[user.value := SettledUser(Host(), u1, requested, request)]
              && url == if RequestsConsole(requested) then requested
                        else ClientLanding(DiscoveredKey(Host(), stored, requested, request)))
    {
      if user.None? {
        return redirectTo;
      }
      var i := user.value;
      var u := directory.users[i];
      var licenseKey := StoredKey(u);
      if Users.ClientRole !in u.roles && !PhpEmpty(licenseKey) {
        u := u.(roles := u.roles + {Users.ClientRole});
      }
      assert u == if !PhpEmpty(licenseKey) then directory.users[i].(roles := directory.users[i].roles + {Users.ClientRole})
                  else directory.users[i];
      if Users.ClientRole !in u.roles {
        return if !PhpEmpty(requested) then requested else redirectTo;
      }
      url := ClientRedirect(i, u, requested);
      assert StoredKey(u) == licenseKey by {
        assert u.meta == old(directory.users)[i].meta;
      }
    }

    /**
     * `filter_login_redirect` once the user `u` (stored at `i`, perhaps
     * without the role it has just been granted) is a client.
     */
    method ClientRedirect(i: nat, u: Users.User, requested: string) returns (url: string)
      requires registry.Valid() && i < |directory.users|
      requires Users.ClientRole in u.roles && u.(roles := directory.users[i].roles) == directory.users[i]
      modifies registry, directory
      ensures registry.Valid() && registry.Records() == old(registry.Records()) && |directory.users| == |old(directory.users)|
      ensures directory.users == old(directory.users)[i := SettledUser(Host(), u, requested, request)]
      ensures url == if RequestsConsole(requested) then requested else ClientLanding(DiscoveredKey(Host(), StoredKey(u), requested, request))
    {
      var settled := SettledUser(Host(), u, requested, request);
      PutUser(i, settled);
      var licenseKey := DiscoveredKey(Host(), StoredKey(u), requested, request);
      var toConsole := RequestsConsole(requested);
      var claimed;
      url, claimed := LoginLanding(i, licenseKey, requested, toConsole);
      if claimed.Some? {
        ConsoleClaimNeverStores(Host(), StoredKey(u), requested, request);
        assert false;
      }
    }

    /**
     * The end of `filter_login_redirect` for a client whose key has settled
     * as `key`: a requested console URL is honoured (claiming the key it
     * carries when none was found), else the dashboard for the key or the
     * public site.
     */
    method LoginLanding(i: nat, key: string, requested: string, toConsole: bool) returns (url: string, claimed: Option<string>)
      requires registry.Valid() && i < |directory.users|
      requires key == "" || (!PhpEmpty(key) && !LicenseKeys.IsLegacy(key))
      modifies registry, directory
      ensures registry.Valid() && registry.Records() == old(registry.Records())
      ensures url == if toConsole then requested else ClientLanding(key)
      ensures claimed.Some? ==> !PhpEmpty(claimed.value) && !LicenseKeys.IsLegacy(claimed.value)
      ensures claimed.Some? ==> toConsole && PhpEmpty(key) && claimed.value == Urls.LicenseFromUrl(Host(), requested)
      ensures directory.users == Claim(old(directory.users), i, claimed)
    {
      var license: Option<Registry.Record> := None;
      if !PhpEmpty(key) {
        license := registry.LookupByKey(key);
      }
      claimed := None;
      if toConsole {
        if PhpEmpty(key) {
          claimed := ClaimRequested(i, requested);
        }
        return requested, claimed;
      }
      url := DashboardLanding(key, license);
    }

    /** The dashboard URL for a settled key and the record found for it. */
    static method DashboardLanding(key: string, license: Option<Registry.Record>) returns (url: string)
      requires key == "" || (!PhpEmpty(key) && !LicenseKeys.IsLegacy(key))
      requires license.Some? ==> Registry.HasString(license.value, "key", key)
      ensures url == ClientLanding(key)
    {
      if !PhpEmpty(key) {
        var record := if license.Some? then license.value else map["key" := Registry.Str(key)];
        assert Urls.DashboardKey(Some(record), key) == key;
        return Urls.DashboardUrl(Some(record), key);
      }
      return Urls.DashboardBase;
    }

    /** Store the key of the requested URL as the user's `vl_license_key` when it is usable. */
    method ClaimRequested(i: nat, requested: string) returns (claimed: Option<string>)
      requires i < |directory.users|
      modifies directory
      ensures claimed.Some? ==> !PhpEmpty(claimed.value) && !LicenseKeys.IsLegacy(claimed.value)
      ensures claimed.Some? <==> var guess := Urls.LicenseFromUrl(Host(), requested); !PhpEmpty(guess) && !LicenseKeys.IsLegacy(guess)
      ensures claimed.Some? ==> claimed.value == Urls.LicenseFromUrl(Host(), requested)
      ensures directory.users == Claim(old(directory.users), i, claimed)
    {
      var requestedLicense := Urls.LicenseFromUrl(registry.host, requested);
      if !PhpEmpty(requestedLicense) && !LicenseKeys.IsLegacy(requestedLicense) {
        claimed := Some(requestedLicense);
        directory.users := Claim(directory.users, i, claimed);
      } else {
        claimed := None;
      }
    }

    /** The key a signed-in client's bounce uses, deleting a legacy one first. */
    method BounceKey(i: nat) returns (key: string)
      requires i < |directory.users|
      modifies directory
      ensures |directory.users| == |old(directory.users)|
      ensures var u0 := old(directory.users)[i];
        && (LicenseKeys.IsLegacy(MetaOr(u0, Users.LicenseMeta)) ==>
              key == "" && directory.users == old(directory.users)[i := DropLicenseMeta(u0)])
        && (!LicenseKeys.IsLegacy(MetaOr(u0, Users.LicenseMeta)) ==>
              key == MetaOr(u0, Users.LicenseMeta) && directory.users == old(directory.users))
    {
      key := MetaOr(directory.users[i], Users.LicenseMeta);
      if LicenseKeys.IsLegacy(key) {
        PutUser(i, DropLicenseMeta(directory.users[i]));
        key := "";
      }
    }

    /** The client's dashboard for `key`, or `otherwise` when the key has no record. */
    method LandingFor(key: string, otherwise: string) returns (url: string)
      requires Valid() && !LicenseKeys.IsLegacy(key)
      modifies registry
      ensures Valid() && registry.Records() == old(registry.Records())
      ensures url == if !PhpEmpty(key) && key in registry.Records() then Urls.DashboardLink(key) else otherwise
    {
      var license: Option<Registry.Record> := None;
      if !PhpEmpty(key) {
        license := registry.LookupByKey(key);
      }
      if license.Some? {
        return Urls.DashboardUrl(license, key);
      }
      return otherwise;
    }

    /**
     * `redirect_authenticated_clients`: a signed-in client on the login page
     * goes to its dashboard, or to the console page when its key has no
     * record; a legacy stored key is deleted first.
     */
    method RedirectAuthenticatedClients() returns (resp: Response)
      requires Valid()
      modifies registry, directory
      ensures Valid() && registry.Records() == old(registry.Records())
      ensures !(onLoginPage && current.Some? && Users.ClientRole in old(directory.users)[current.value].roles) ==>
        resp == Continue && directory.users == old(directory.users)
      ensures onLoginPage && current.Some? && Users.ClientRole in old(directory.users)[current.value].roles ==>
        var u0 := old(directory.users)[current.value];
        var key := MetaOr(u0, Users.LicenseMeta);
        && resp == Redirect(
             if !PhpEmpty(key) && !LicenseKeys.IsLegacy(key) && key in registry.Records()
             then Urls.DashboardLink(key)
             else home + Urls.ConsoleBasePaths[0])
        && directory.users == if LicenseKeys.IsLegacy(key) then old(directory.users)[current.value := DropLicenseMeta(u0)]
                              else old(directory.users)
    {
      if onLoginPage && current.Some? {
        var i := current.value;
        if Users.ClientRole in directory.users[i].roles {
          var key := BounceKey(i);
          var url := LandingFor(key, home + Urls.ConsoleBasePaths[0]);
          return Redirect(url);
        }
      }
      return Continue;
    }

    /**
     * `maybe_redirect_logged_in_client_from_wp_login`: unless the action is
     * one of the account actions, a signed-in client is sent to its dashboard,
     * or to the public site when its key has no record.
     */
    method MaybeRedirectLoggedInClientFromWpLogin() returns (resp: Response)
      requires Valid()
      modifies registry, directory
      ensures Valid() && registry.Records() == old(registry.Records())
      ensures var action := if "action" in request then WordPress.SanitizeKey(request["action"]) else "login";
        var bounce := action !in LoginActions && current.Some? && Users.ClientRole in old(directory.users)[current.value].roles;
        && (!bounce ==> resp == Continue && directory.users == old(directory.users))
        && (bounce ==>
              var u0 := old(directory.users)[current.value];
              var key := MetaOr(u0, Users.LicenseMeta);
              && resp == Redirect(
                   if !PhpEmpty(key) && !LicenseKeys.IsLegacy(key) && key in registry.Records()
                   then Urls.DashboardLink(key)
                   else Urls.DashboardBase)
              && directory.users == if LicenseKeys.IsLegacy(key) then old(directory.users)[current.value := DropLicenseMeta(u0)]
                                    else old(directory.users))
    {
      var action := if "action" in request then WordPress.SanitizeKey(request["action"]) else "login";
      if action in LoginActions {
        return Continue;
      }
      if current.None? {
        return Continue;
      }
      var i := current.value;
      if Users.ClientRole !in directory.users[i].roles {
        return Continue;
      }
      var key := BounceKey(i);
      var url := LandingFor(key, Urls.DashboardBase);
      return Redirect(url);
    }
  }

  /** A bounce never puts a legacy key in the URL it redirects to. */
  lemma BounceNeverLegacy(key: string, records: map<string, Registry.Record>, otherwise: string)
    ensures var url := if !PhpEmpty(key) && !LicenseKeys.IsLegacy(key) && key in records
                       then Urls.DashboardLink(key) else otherwise;
      url == otherwise || exists t :: url == Urls.DashboardLink(t) && t in records && !LicenseKeys.IsLegacy(t)
  {
  }
}
