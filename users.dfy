/** Client users: finding the user bound to a license and creating or updating one. */
module Users {

  import opened Common
  import opened Text
  import WordPress

  const ClientRole: string := "vl_client"
  const LicenseMeta: string := "vl_license_key"
  const LegacyLicenseMeta: string := "license_key"
  const SiteMeta: string := "vl_client_site"

  /** A WordPress user, with the fields this plugin reads or writes. */
  datatype User = User(
    id: nat, login: string, email: string, roles: set<string>, meta: map<string, string>,
    displayName: string, firstName: string, activationKey: string, password: string)

  /** A client user bound to `key` through either license meta field. */
  predicate OwnsLicense(u: User, key: string) {
    && ClientRole in u.roles
    && ((LicenseMeta in u.meta && u.meta[LicenseMeta] == key)
        || (LegacyLicenseMeta in u.meta && u.meta[LegacyLicenseMeta] == key))
  }

  /** The first index at or after `from` whose user owns `key`. */
  function FirstOwner(users: seq<User>, key: string, from: nat): (r: Option<nat>)
    requires from <= |users|
    ensures r.Some? ==> from <= r.value < |users| && OwnsLicense(users[r.value], key)
    ensures r.Some? ==> forall j :: from <= j < r.value ==> !OwnsLicense(users[j], key)
    ensures r.None? ==> forall j :: from <= j < |users| ==> !OwnsLicense(users[j], key)
    decreases |users| - from
  {
    if from == |users| then None
    else if OwnsLicense(users[from], key) then Some(from)
    else FirstOwner(users, key, from + 1)
  }

  /**
   * `lic_find_user_by_license`: the first client user (in directory order)
   * whose `vl_license_key` or `license_key` equals the key; none for an empty key.
   */
  function FindUserByLicense(users: seq<User>, key: string): (r: Option<nat>)
    ensures PhpEmpty(key) ==> r.None?
    ensures r.Some? ==> (r.value < |users| && OwnsLicense(users[r.value], key)
                         && forall j :: 0 <= j < r.value ==> !OwnsLicense(users[j], key))
    ensures r.None? && !PhpEmpty(key) ==> forall j :: 0 <= j < |users| ==> !OwnsLicense(users[j], key)
  {
    if PhpEmpty(key) then None else FirstOwner(users, key, 0)
  }

  /** The first index whose user has e-mail `email` (`email_exists`). */
  function FirstWithEmail(users: seq<User>, email: string): (r: Option<nat>)
    ensures r.Some? ==> (r.value < |users| && users[r.value].email == email
                         && forall j :: 0 <= j < r.value ==> users[j].email != email)
    ensures r.None? ==> forall j :: 0 <= j < |users| ==> users[j].email != email
  {
    if users == [] then None
    else if users[0].email == email then Some(0)
    else
      var r := FirstWithEmail(users[1..], email);
      if r.Some? then Some(r.value + 1) else None
  }

  /**
   * The login a new client starts from: the client name without white space,
   * lower-cased; else the e-mail's local part; else the name with dashes for
   * spaces, lower-cased; else `vlclient` (each but the last through `sanitize_user`).
   */
  function UsernameBase(h: WordPress.Host, clientName: string, email: string): (r: string)
    ensures !PhpEmpty(r)
    ensures !PhpEmpty(clientName) && !PhpEmpty(h.sanitizeUser(Lower(RemoveAll(clientName, PcreSpace)))) ==>
      r == h.sanitizeUser(Lower(RemoveAll(clientName, PcreSpace)))
  {
    var fromName := if !PhpEmpty(clientName) then h.sanitizeUser(Lower(RemoveAll(clientName, PcreSpace))) else "";
    if !PhpEmpty(fromName) then fromName
    else
      var fromEmail := h.sanitizeUser(Before(email, '@'));
      if !PhpEmpty(fromEmail) then fromEmail
      else
        var dashed := h.sanitizeUser(Lower(ReplaceChar(clientName, ' ', "-")));
        if !PhpEmpty(dashed) then dashed else "vlclient"
  }

  /** The `k`-th login tried: `base`, then `base1`, `base2`, ... */
  function Candidate(base: string, k: nat): string {
    if k == 0 then base else base + NatToString(k)
  }

  lemma CandidatesDistinct(base: string, j: nat, k: nat)
    requires j != k
    ensures Candidate(base, j) != Candidate(base, k)
  {
    if j != 0 && k != 0 && Candidate(base, j) == Candidate(base, k) {
      assert (base + NatToString(j))[|base|..] == NatToString(j);
      assert (base + NatToString(k))[|base|..] == NatToString(k);
      NatToStringInjective(j, k);
    }
  }

  /** The outcome of `ensure_client_user`. */
  datatype Outcome = Bound(index: nat, created: bool) | Failed(code: string)

  class UserDirectory {
    /** The users, in the order a user query returns them. */
    var users: seq<User>

    constructor(users: seq<User>)
      ensures this.users == users
    {
      this.users := users;
    }

    function Logins(): set<string>
      reads this
    {
      set i | 0 <= i < |users| :: users[i].login
    }

    /** The id WordPress gives the next user: one more than the largest. */
    function NextId(): (id: nat)
      reads this
      ensures forall i :: 0 <= i < |users| ==> users[i].id < id
    {
      MaxId(users) + 1
    }

    /**
     * The `while (username_exists($username))` loop: the first candidate
     * login that no user has.
     */
    method FreshUsername(base: string) returns (username: string, ghost k: nat)
      ensures username == Candidate(base, k) && username !in Logins()
      ensures forall j :: 0 <= j < k ==> Candidate(base, j) in Logins()
    {
      var logins := Logins();
      username := base;
      var suffix: nat := 1;
      k := 0;
      ghost var tried: set<string> := {};
      while username in logins
        invariant k == suffix - 1 && username == Candidate(base, k)
        invariant forall j :: 0 <= j < k ==> Candidate(base, j) in logins
        invariant tried == set j | 0 <= j < k :: Candidate(base, j)
        invariant tried <= logins && username !in tried
        decreases logins - tried
      {
        tried := tried + {username};
        username := base + NatToString(suffix);
        k := suffix;
        suffix := suffix + 1;
        forall j | 0 <= j < k ensures Candidate(base, j) != username {
          CandidatesDistinct(base, j, k);
        }
      }
    }

    /**
     * `ensure_client_user`. A sanitised e-mail that is empty or invalid is
     * refused with no change. A user with that e-mail gains the client role,
     * both license meta fields, the site (when given), the display name (when
     * given) and the key as activation key. Otherwise a user is created with
     * the first free login and the given password or, when it is blank,
     * `generated`; `createError` stands for `wp_create_user` failing.
     */
    method EnsureClientUser(h: WordPress.Host, clientName: string, email: string, key: string, site: string,
                            password: string, generated: string, createError: Option<string>)
      returns (r: Outcome)
      modifies this
      ensures var mail := h.sanitizeEmail(email);
        (PhpEmpty(mail) || !h.isEmail(mail)) ==> r == Failed("invalid_email") && users == old(users)
      ensures var mail := h.sanitizeEmail(email);
        !PhpEmpty(mail) && h.isEmail(mail) && FirstWithEmail(old(users), mail).Some? ==>
          && r == Bound(FirstWithEmail(old(users), mail).value, false)
          && users == old(users)[r.index := Updated(old(users)[r.index], clientName, key, h.sanitizeText(site))]
      ensures var mail := h.sanitizeEmail(email);
        !PhpEmpty(mail) && h.isEmail(mail) && FirstWithEmail(old(users), mail).None? && createError.Some? ==>
          r == Failed(createError.value) && users == old(users)
      ensures var mail := h.sanitizeEmail(email);
        !PhpEmpty(mail) && h.isEmail(mail) && FirstWithEmail(old(users), mail).None? && createError.None? ==>
          && r == Bound(|old(users)|, true) && |users| == |old(users)| + 1
          && users == old(users) + [NewClient(MaxId(old(users)) + 1, users[r.index].login, mail, clientName, key,
                                              h.sanitizeText(site), if Trim(password, PhpSpace) == "" then generated else password)]
          && IsFirstFreeLogin(users[r.index].login, UsernameBase(h, clientName, mail), old(Logins()))
      ensures r.Failed? ==> users == old(users)
    {
      var mail := h.sanitizeEmail(email);
      if PhpEmpty(mail) || !h.isEmail(mail) {
        return Failed("invalid_email");
      }
      var cleanSite := h.sanitizeText(site);
      var existing := FirstWithEmail(users, mail);
      if existing.Some? {
        var i := existing.value;
        users := users[i := Updated(users[i], clientName, key, cleanSite)];
        return Bound(i, false);
      }
      var base := UsernameBase(h, clientName, mail);
      var username, k := FreshUsername(base);
      var pw := if Trim(password, PhpSpace) == "" then generated else password;
      if createError.Some? {
        return Failed(createError.value);
      }
      ghost var taken := Logins();
      assert IsFirstFreeLogin(username, base, taken);
      var u := NewClient(NextId(), username, mail, clientName, key, cleanSite, pw);
      users := users + [u];
      r := Bound(|users| - 1, true);
      assert users[r.index] == u;
    }
  }

  /** `login` is the first of `base`, `base1`, `base2`, ... that is not in `taken`. */
  ghost predicate IsFirstFreeLogin(login: string, base: string, taken: set<string>) {
    exists k: nat :: login == Candidate(base, k) && login !in taken && forall j :: 0 <= j < k ==> Candidate(base, j) in taken
  }

  /** The user `ensure_client_user` creates: a client bound to `key` under both meta fields. */
  function NewClient(id: nat, login: string, email: string, clientName: string, key: string, site: string, password: string): (u: User)
    ensures OwnsLicense(u, key) && u.roles == {ClientRole} && u.activationKey == key
    ensures u.displayName == clientName && u.firstName == clientName
    ensures (SiteMeta in u.meta) == !PhpEmpty(site)
  {
    var meta := map[LicenseMeta := key, LegacyLicenseMeta := key];
    User(id, login, email, {ClientRole}, if PhpEmpty(site) then meta else meta[SiteMeta := site],
         clientName, clientName, key, password)
  }

  /** What `ensure_client_user` does to an existing user with the client's e-mail. */
  function Updated(u: User, clientName: string, key: string, site: string): (v: User)
    ensures OwnsLicense(v, key) && v.activationKey == key
    ensures LicenseMeta in v.meta && v.meta[LicenseMeta] == key
    ensures LegacyLicenseMeta in v.meta && v.meta[LegacyLicenseMeta] == key
    ensures v.id == u.id && v.login == u.login && v.email == u.email && v.password == u.password
    ensures v.roles == u.roles + {ClientRole}
    ensures !PhpEmpty(site) ==> SiteMeta in v.meta && v.meta[SiteMeta] == site
    ensures v.displayName == if PhpEmpty(clientName) then u.displayName else clientName
  {
    var meta := u.meta[LicenseMeta := key][LegacyLicenseMeta := key];
    var meta' := if !PhpEmpty(site) then meta[SiteMeta := site] else meta;
    var name := if !PhpEmpty(clientName) && u.displayName != clientName then clientName else u.displayName;
    u.(roles := u.roles + {ClientRole}, meta := meta', displayName := name, activationKey := key)
  }

  function MaxId(users: seq<User>): (m: nat)
    ensures forall i :: 0 <= i < |users| ==> users[i].id <= m
  {
    if users == [] then 0
    else
      var rest := MaxId(users[1..]);
      if users[0].id > rest then users[0].id else rest
  }

  /** A user that owns the key keeps being found, or an earlier owner is. */
  lemma {:induction false} FindAfterAppend(users: seq<User>, u: User, key: string)
    requires FindUserByLicense(users, key).Some?
    ensures FindUserByLicense(users + [u], key) == FindUserByLicense(users, key)
  {
    var i := FindUserByLicense(users, key).value;
    var r := FindUserByLicense(users + [u], key);
    assert (users + [u])[i] == users[i];
  }
}
