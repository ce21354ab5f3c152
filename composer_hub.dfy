/**
 * luna-composer-hub.js: the account-aware composer of the Luna widget. It
 * normalises the accounts the page provides, picks the account shared by
 * every composer, keeps the submit button's state, and binds suggested
 * prompts to the composer.
 */
module ComposerHub {

  import opened Common
  import opened Text
  import Html

  /** One entry of `settings.accounts`, as the reducer inspects it. */
  datatype RawAccount = NotObject | Item(license: JsVal, labelText: JsVal, site: JsVal, status: JsVal, isDemo: JsVal)

  /** A normalised account. */
  datatype Account = Account(license: string, labelText: string, site: string, status: string, isDemo: bool)

  /** `typeof v === 'string' ? v.trim() : ''`. */
  function TrimmedString(v: JsVal): string {
    if v.JStr? then JsTrim(v.s) else ""
  }

  /** The reducer's step: non-objects and items without a license are dropped. */
  function Normalise(item: RawAccount): (r: Option<Account>)
    ensures r.Some? <==> item.Item? && TrimmedString(item.license) != ""
    ensures r.Some? ==> r.value.license == TrimmedString(item.license) && r.value.labelText != ""
  {
    match item
    case NotObject => None
    case Item(license, labelText, site, status, isDemo) =>
      var l := TrimmedString(license);
      if l == "" then None
      else Some(Account(l, if TrimmedString(labelText) != "" then TrimmedString(labelText) else l,
                        TrimmedString(site), TrimmedString(status), JsTruthy(isDemo)))
  }

  /** The kept accounts, in order. */
  function NormaliseAll(items: seq<RawAccount>): (r: seq<Account>)
    ensures |r| <= |items|
    ensures forall i :: 0 <= i < |r| ==> r[i].license != "" && r[i].labelText != ""
  {
    if items == [] then []
    else
      var prev := NormaliseAll(items[..|items| - 1]);
      match Normalise(items[|items| - 1])
      case None => prev
      case Some(a) => prev + [a]
  }

  /** `accountsByLicense`: each license maps to the last account carrying it. */
  function IndexByLicense(accounts: seq<Account>): (m: map<string, Account>)
    ensures forall l :: l in m ==> m[l].license == l
  {
    if accounts == [] then map[]
    else
      var last := accounts[|accounts| - 1];
      IndexByLicense(accounts[..|accounts| - 1])[last.license := last]
  }

  /** Every account's license is indexed. */
  lemma {:induction false} IndexHas(accounts: seq<Account>, i: nat)
    requires i < |accounts|
    ensures accounts[i].license in IndexByLicense(accounts)
    decreases |accounts|
  {
    if i < |accounts| - 1 {
      assert accounts[..|accounts| - 1][i] == accounts[i];
      IndexHas(accounts[..|accounts| - 1], i);
    }
  }

  /** Only the accounts' licenses are indexed. */
  lemma {:induction false} IndexOnly(accounts: seq<Account>, l: string)
    requires l in IndexByLicense(accounts)
    ensures exists i :: 0 <= i < |accounts| && accounts[i].license == l
    decreases |accounts|
  {
    var init := accounts[..|accounts| - 1];
    if l != accounts[|accounts| - 1].license {
      IndexOnly(init, l);
      var i :| 0 <= i < |init| && init[i].license == l;
      assert accounts[i] == init[i];
    }
  }

  /** An account no later account shares a license with is the one indexed under it. */
  lemma {:induction false} IndexHoldsLast(accounts: seq<Account>, i: nat)
    requires i < |accounts|
    requires forall j :: i < j < |accounts| ==> accounts[j].license != accounts[i].license
    ensures accounts[i].license in IndexByLicense(accounts) && IndexByLicense(accounts)[accounts[i].license] == accounts[i]
    decreases |accounts|
  {
    if i < |accounts| - 1 {
      var init := accounts[..|accounts| - 1];
      assert init[i] == accounts[i];
      forall j | i < j < |init| ensures init[j].license != init[i].license {
        assert init[j] == accounts[j];
      }
      IndexHoldsLast(init, i);
    }
  }

  /** The reduce's accumulator after the given items: the kept accounts and their index. */
  function Load(raw: seq<RawAccount>): (seq<Account>, map<string, Account>) {
    if raw == [] then ([], map[])
    else
      var (accounts, index) := Load(raw[..|raw| - 1]);
      match Normalise(raw[|raw| - 1])
      case None => (accounts, index)
      case Some(a) => (accounts + [a], index[a.license := a])
  }

  /** The accumulator holds the kept accounts and their index. */
  lemma {:induction false} LoadIsSpec(raw: seq<RawAccount>)
    ensures Load(raw).0 == NormaliseAll(raw)
    ensures Load(raw).1 == IndexByLicense(NormaliseAll(raw))
  {
    if raw != [] {
      var init := raw[..|raw| - 1];
      LoadIsSpec(init);
      match Normalise(raw[|raw| - 1]) {
        case None =>
        case Some(a) =>
          var kept := NormaliseAll(init);
          assert (kept + [a])[..|kept|] == kept;
      }
    }
  }

  /** The `accounts` reduce: keep the normalised accounts and index them by license. */
  method LoadAccounts(raw: seq<RawAccount>) returns (accounts: seq<Account>, byLicense: map<string, Account>)
    ensures accounts == NormaliseAll(raw)
    ensures byLicense == IndexByLicense(accounts)
  {
    accounts := [];
    byLicense := map[];
    var i := 0;
    while i < |raw|
      invariant 0 <= i <= |raw|
      invariant (accounts, byLicense) == Load(raw[..i])
    {
      assert raw[..i + 1][..i] == raw[..i];
      var item := Normalise(raw[i]);
      if item.Some? {
        accounts := accounts + [item.value];
        byLicense := byLicense[item.value.license := item.value];
      }
      i := i + 1;
    }
    assert raw[..i] == raw;
    LoadIsSpec(raw);
  }

  /** The position of the first demo account. */
  function FirstDemo(accounts: seq<Account>): (r: Option<nat>)
    ensures r.Some? ==> r.value < |accounts| && accounts[r.value].isDemo
    ensures r.Some? ==> forall j :: 0 <= j < r.value ==> !accounts[j].isDemo
    ensures r.None? ==> forall j :: 0 <= j < |accounts| ==> !accounts[j].isDemo
  {
    if accounts == [] then None
    else if accounts[0].isDemo then Some(0)
    else match FirstDemo(accounts[1..])
      case None => None
      case Some(i) => Some(i + 1)
  }

  /**
   * The initial `sharedAccountKey`: `activeAccount` when it names a known
   * account, else the first demo account, else the first account, else "".
   */
  function SharedAccountKey(activeAccount: JsVal, accounts: seq<Account>): (r: string)
    requires forall i :: 0 <= i < |accounts| ==> accounts[i].license != ""
    ensures r == "" <==> accounts == []
    ensures r != "" ==> r in IndexByLicense(accounts)
    ensures TrimmedString(activeAccount) in IndexByLicense(accounts) && TrimmedString(activeAccount) != "" ==>
      r == TrimmedString(activeAccount)
    ensures TrimmedString(activeAccount) !in IndexByLicense(accounts) || TrimmedString(activeAccount) == "" ==>
      r == match FirstDemo(accounts)
           case Some(i) => accounts[i].license
           case None => if accounts == [] then "" else accounts[0].license
  {
    var key := TrimmedString(activeAccount);
    var key := if key != "" && key !in IndexByLicense(accounts) then "" else key;
    if key == "" && |accounts| > 0 then
      match FirstDemo(accounts)
      case Some(i) => (IndexHas(accounts, i); accounts[i].license)
      case None => (IndexHas(accounts, 0); accounts[0].license)
    else
      key
  }

  /** The pieces `formatAccountMeta` joins: the site, the status, then "Demo". */
  function MetaPieces(a: Account): seq<string> {
    (if a.site != "" then [a.site] else []) + (if a.status != "" then [a.status] else []) + (if a.isDemo then ["Demo"] else [])
  }

  /** The separator between the pieces. */
  const MetaSeparator: string := " · "

  /** `formatAccountMeta`. */
  function FormatAccountMeta(account: Option<Account>): string {
    if account.None? then "" else Join(MetaPieces(account.value), MetaSeparator)
  }

  /** The prompt `updateAccountMeta` shows when an account is required and none is chosen. */
  const ChooseAccountMessage: string := "Select an account to compose responses."

  /** `updateAccountMeta`: the text of the summary line and whether it is shown. */
  function AccountMetaLine(account: Option<Account>, requireAccount: bool): (line: (string, bool))
    ensures line.1 <==> line.0 != ""
    ensures account.Some? ==> line.0 == FormatAccountMeta(account)
    ensures account.None? ==> line == (if requireAccount then (ChooseAccountMessage, true) else ("", false))
  {
    if account.Some? then
      var summary := FormatAccountMeta(account);
      (summary, summary != "")
    else if requireAccount then (ChooseAccountMessage, true)
    else ("", false)
  }

  /** The summary line is hidden exactly when no account is required and none is chosen, or the chosen one has nothing to show. */
  lemma AccountMetaHidden(account: Option<Account>, requireAccount: bool)
    ensures !AccountMetaLine(account, requireAccount).1 <==>
      (account.None? && !requireAccount)
      || (account.Some? && account.value.site == "" && account.value.status == "" && !account.value.isDemo)
  {
    AccountMetaEmpty(account);
  }

  /** Joining pieces that are all non-empty is empty only when there are none. */
  lemma {:induction false} JoinNonEmpty(pieces: seq<string>, sep: string)
    requires forall i :: 0 <= i < |pieces| ==> pieces[i] != ""
    ensures Join(pieces, sep) == "" <==> pieces == []
  {
    if |pieces| > 1 {
      assert |Join(pieces, sep)| >= |pieces[0]| > 0;
    }
  }

  /** The summary is empty exactly when there is no account or it has no site, no status and is no demo. */
  lemma AccountMetaEmpty(account: Option<Account>)
    ensures FormatAccountMeta(account) == "" <==>
      account.None? || (account.value.site == "" && account.value.status == "" && !account.value.isDemo)
  {
    if account.Some? {
      var p := MetaPieces(account.value);
      assert forall i :: 0 <= i < |p| ==> p[i] != "";
      JoinNonEmpty(p, MetaSeparator);
    }
  }

  /**
   * The summary is the site, the status and "Demo" in that order, each shown
   * only when set, with one separator between each two that are shown.
   */
  lemma AccountMetaOrder(a: Account)
    ensures FormatAccountMeta(Some(a)) ==
      a.site + (if a.site != "" && (a.status != "" || a.isDemo) then MetaSeparator else "")
      + a.status + (if a.status != "" && a.isDemo then MetaSeparator else "")
      + (if a.isDemo then "Demo" else "")
  {
    var p := MetaPieces(a);
    var sep := MetaSeparator;
    match (a.site != "", a.status != "", a.isDemo)
    case (true, true, true) =>
      assert p == [a.site, a.status, "Demo"] && p[1..] == [a.status, "Demo"] && p[1..][1..] == ["Demo"];
      assert Join(p[1..], sep) == a.status + sep + "Demo";
    case (true, true, false) =>
      assert p == [a.site, a.status] && p[1..] == [a.status];
      assert Join(p, sep) == a.site + sep + a.status;
    case (true, false, true) =>
      assert p == [a.site, "Demo"] && p[1..] == ["Demo"];
      assert Join(p, sep) == a.site + sep + "Demo";
    case (false, true, true) =>
      assert p == [a.status, "Demo"] && p[1..] == ["Demo"];
      assert Join(p, sep) == a.status + sep + "Demo";
    case (true, false, false) =>
      assert p == [a.site];
    case (false, true, false) =>
      assert p == [a.status];
    case (false, false, true) =>
      assert p == ["Demo"];
    case (false, false, false) =>
      assert p == [];
  }

  /** `prompt.replace(/\s+/g, ' ').trim()`. */
  function NormalisePrompt(s: string): string {
    JsTrim(JsCollapseSpace(s))
  }

  /** Collapsing white space keeps a string blank, or not blank. */
  lemma {:induction false} CollapseKeepsBlank(s: string)
    ensures JsBlank(JsCollapseSpace(s)) <==> JsBlank(s)
    decreases |s|
  {
    if s != [] {
      var r := JsCollapseSpace(s);
      if IsJsSpace(s[0]) {
        var n := JsLeading(s);
        var rest := s[n..];
        CollapseKeepsBlank(rest);
        var t := JsCollapseSpace(rest);
        assert r == [' '] + t;
        assert forall i :: 1 <= i < |r| ==> r[i] == t[i - 1];
        assert forall i :: 0 <= i < |t| ==> t[i] == r[i + 1];
        assert forall i :: n <= i < |s| ==> s[i] == rest[i - n];
        assert forall i :: 0 <= i < |rest| ==> rest[i] == s[i + n];
      } else {
        assert r[0] == s[0];
      }
    }
  }

  /** A prompt normalises to nothing exactly when it is only white space. */
  lemma NormalisedEmptyIffBlank(s: string)
    ensures NormalisePrompt(s) == "" <==> JsBlank(s)
  {
    CollapseKeepsBlank(s);
    JsTrimEmptyIffBlank(JsCollapseSpace(s));
  }

  /** A suggested-prompt element. */
  class PromptButton {
    /** `data-luna-prompt`, when present. */
    const dataPrompt: Option<string>
    /** The element's text. */
    const textContent: string
    /** `data-luna-prompt-bound === 'true'`. */
    var bound: bool
    /** `aria-pressed` ("" while unset). */
    var ariaPressed: string
    /** `data-luna-prompt-target`. */
    var target: string
    /** The text a click puts into the editor. */
    var prompt: string

    constructor(dataPrompt: Option<string>, textContent: string)
      ensures this.dataPrompt == dataPrompt && this.textContent == textContent
      ensures !bound && ariaPressed == "" && target == "" && prompt == ""
    {
      this.dataPrompt := dataPrompt;
      this.textContent := textContent;
      bound := false;
      ariaPressed := "";
      target := "";
      prompt := "";
    }

    /** `item.getAttribute('data-luna-prompt') || item.textContent || ''`. */
    function PromptSource(): string
      reads this
    {
      if dataPrompt.Some? && dataPrompt.value != "" then dataPrompt.value else textContent
    }
  }

  /**
   * What the response area shows: the formatted answer followed by one
   * `luna-composer__meta` paragraph per meta line, or an error message.
   */
  datatype Display = Idle | Answer(html: string, meta: seq<string>) | Failure(message: string)

  /**
   * What the chat endpoint replied: nothing usable, or a JSON body with the
   * `source`, `account_label` and `account_site` of its `meta` (undefined
   * when there is no `meta`).
   */
  datatype Reply = Unusable | Body(answer: JsVal, message: JsVal, source: JsVal, accountLabel: JsVal, accountSite: JsVal)

  /** A prompt posted to the chat endpoint, with the selected account's license. */
  datatype Request = Request(prompt: string, licenseOverride: Option<string>)

  const FailureMessage: string := "Sorry, something went wrong reaching Luna. Please try again."
  const NoAccountMessage: string := "Select an account before sending a prompt."
  const NoAnswer: string := "Luna did not return a response."

  /** `data.answer || data.message`, or the stock text when both are falsy. */
  function PickAnswer(answer: JsVal, message: JsVal): JsVal {
    if JsTruthy(answer) then answer else if JsTruthy(message) then message else JStr(NoAnswer)
  }

  /** `escapeHTML` accepts the value: a string, or a falsy value it replaces by ''. */
  predicate Escapable(v: JsVal) {
    v.JStr? || !JsTruthy(v)
  }

  /** One line of the meta block: `Name: value` with the value escaped, or no line for a falsy value. */
  function MetaLine(name: string, v: JsVal): (r: seq<string>)
    requires Escapable(v)
    ensures |r| == if JsTruthy(v) then 1 else 0
    ensures JsTruthy(v) ==> |r[0]| >= |name| + 2 && r[0][..|name| + 2] == name + ": "
                            && Html.Unescape(r[0][|name| + 2..]) == v.s
  {
    if JsTruthy(v) then
      var e := Html.HubEscape(v);
      assert (name + ": " + e)[|name| + 2..] == e;
      [name + ": " + e]
    else []
  }

  /** The meta lines `showAnswer` builds: source, account, then site. */
  function MetaLines(source: JsVal, account: JsVal, site: JsVal): seq<string>
    requires Escapable(source) && Escapable(account) && Escapable(site)
  {
    MetaLine("Source", source) + MetaLine("Account", account) + MetaLine("Site", site)
  }

  /**
   * What a reply shows. `formatAnswer` and `escapeHTML` call string methods
   * on their argument, so an answer or a shown meta value that is truthy
   * but not a string throws, and the failure message is shown instead.
   */
  function Outcome(reply: Reply): (d: Display)
    ensures reply.Unusable? ==> d == Failure(FailureMessage)
    ensures d.Answer? <==>
      reply.Body? && PickAnswer(reply.answer, reply.message).JStr?
      && Escapable(reply.source) && Escapable(reply.accountLabel) && Escapable(reply.accountSite)
    ensures d.Answer? ==>
      d.html == Html.HubFormatAnswer(PickAnswer(reply.answer, reply.message))
      && d.meta == MetaLines(reply.source, reply.accountLabel, reply.accountSite)
    ensures !d.Answer? ==> d == Failure(FailureMessage)
  {
    if reply.Unusable? then Failure(FailureMessage)
    else
      var a := PickAnswer(reply.answer, reply.message);
      if a.JStr? && Escapable(reply.source) && Escapable(reply.accountLabel) && Escapable(reply.accountSite)
      then Answer(Html.HubFormatAnswer(a), MetaLines(reply.source, reply.accountLabel, reply.accountSite))
      else Failure(FailureMessage)
  }

  /** A falsy answer and message still show the stock text, never an empty answer, unless the meta block throws. */
  lemma EmptyReplyShowsStockText(answer: JsVal, message: JsVal, source: JsVal, account: JsVal, site: JsVal)
    requires !JsTruthy(answer) && !JsTruthy(message)
    ensures Outcome(Body(answer, message, source, account, site)) ==
      if Escapable(source) && Escapable(account) && Escapable(site)
      then Answer(Html.HubFormatAnswer(JStr(NoAnswer)), MetaLines(source, account, site))
      else Failure(FailureMessage)
  {
  }

  /** With no meta, the answer is shown alone. */
  lemma NoMetaNoLines(answer: JsVal, message: JsVal)
    requires PickAnswer(answer, message).JStr?
    ensures Outcome(Body(answer, message, JUndefined, JUndefined, JUndefined)) ==
      Answer(Html.HubFormatAnswer(PickAnswer(answer, message)), [])
  {
  }

  /** The account after the reply's `meta` has relabelled it. */
  function WithMeta(a: Account, reply: Reply): Account
    requires reply.Body?
  {
    var a := if reply.accountLabel.JStr? && reply.accountLabel.s != "" then a.(labelText := reply.accountLabel.s) else a;
    if reply.accountSite.JStr? && reply.accountSite.s != "" then a.(site := reply.accountSite.s) else a
  }

  /** One composer instance. */
  class Composer {
    /** `root.dataset.lunaComposerId`. */
    const id: string
    /** Some account must be chosen: the page provides accounts. */
    const requireAccount: bool
    var account: Option<Account>
    var submitting: bool
    var buttonDisabled: bool
    /** The page-wide `sharedAccountKey`. */
    var shared: string
    var display: Display
    var sent: seq<Request>

    /** The submit rule: disabled while a request is in flight, or while an account is required and none is chosen. */
    ghost predicate Valid()
      reads this
    {
      buttonDisabled == (submitting || (requireAccount && account.None?))
    }

    /**
     * `initComposer`'s account set-up: with accounts, start from the shared
     * key's account or the first one.
     */
    constructor(id: string, accounts: seq<Account>, shared: string)
      ensures Valid() && this.id == id && requireAccount == (accounts != [])
      ensures !submitting && display == Idle && sent == []
      ensures accounts == [] ==> account.None? && this.shared == shared
      ensures accounts != [] ==>
        account == Some(if shared != "" && shared in IndexByLicense(accounts) then IndexByLicense(accounts)[shared] else accounts[0])
        && this.shared == account.value.license
    {
      this.id := id;
      requireAccount := (accounts != []);
      var index := IndexByLicense(accounts);
      submitting := false;
      display := Idle;
      sent := [];
      if accounts != [] {
        var a := if shared != "" && shared in index then index[shared] else accounts[0];
        account := Some(a);
        buttonDisabled := false;
        this.shared := a.license;
      } else {
        account := None;
        buttonDisabled := false;
        this.shared := shared;
      }
    }

    /** `setAccount` (without the broadcast to other composers). */
    method SetAccount(a: Option<Account>)
      modifies this
      ensures Valid() && account == a && submitting == old(submitting)
      ensures shared == if a.Some? then a.value.license else old(shared)
      ensures display == old(display) && sent == old(sent)
    {
      account := a;
      buttonDisabled := submitting || (requireAccount && account.None?);
      if account.Some? {
        shared := account.value.license;
      }
    }

    /** `setLoading`. */
    method SetLoading(flag: bool)
      modifies this
      ensures Valid() && submitting == flag
      ensures account == old(account) && shared == old(shared) && display == old(display) && sent == old(sent)
    {
      submitting := flag;
      buttonDisabled := flag || (requireAccount && account.None?);
    }

    /**
     * `sendPrompt`: ignored for an empty prompt or while a request is in
     * flight; refused with a message when an account is required and none
     * is chosen; otherwise post the prompt with the account's license, show
     * the reply and clear the in-flight flag.
     */
    method SendPrompt(prompt: string, reply: Reply)
      requires Valid()
      modifies this
      ensures Valid() && shared == old(shared)
      ensures prompt == "" || old(submitting) ==>
        submitting == old(submitting) && account == old(account) && display == old(display) && sent == old(sent)
      ensures prompt != "" && !old(submitting) && requireAccount && old(account).None? ==>
        display == Failure(NoAccountMessage) && sent == old(sent) && !submitting && account.None?
      ensures prompt != "" && !old(submitting) && !(requireAccount && old(account).None?) ==>
        && !submitting
        && sent == old(sent) + [Request(prompt, if old(account).Some? && old(account).value.license != ""
                                                then Some(old(account).value.license) else None)]
        && display == Outcome(reply)
        && account == if old(account).Some? && reply.Body? then Some(WithMeta(old(account).value, reply)) else old(account)
    {
      if prompt == "" || submitting {
        return;
      }
      if requireAccount && account.None? {
        display := Failure(NoAccountMessage);
        return;
      }
      SetLoading(true);
      var license := if account.Some? && account.value.license != "" then Some(account.value.license) else None;
      sent := sent + [Request(prompt, license)];
      if reply.Unusable? {
        display := Failure(FailureMessage);
      } else {
        if account.Some? {
          account := Some(WithMeta(account.value, reply));
        }
        var a := PickAnswer(reply.answer, reply.message);
        if a.JStr? && Escapable(reply.source) && Escapable(reply.accountLabel) && Escapable(reply.accountSite) {
          display := Answer(Html.HubFormatAnswer(a), MetaLines(reply.source, reply.accountLabel, reply.accountSite));
        } else {
          display := Failure(FailureMessage);
        }
      }
      SetLoading(false);
    }

    /**
     * `bindPrompt`: a missing element or a blank prompt is refused;
     * otherwise the element is marked bound, not pressed, and targeted at
     * this composer, and clicking it puts the normalised prompt in the editor.
     */
    method BindPrompt(button: PromptButton?, promptText: string) returns (ok: bool)
      modifies button
      ensures ok <==> button != null && !JsBlank(promptText)
      ensures !ok && button != null ==>
        (button.bound == old(button.bound) && button.ariaPressed == old(button.ariaPressed)
         && button.target == old(button.target) && button.prompt == old(button.prompt))
      ensures ok ==>
        (button.bound && button.ariaPressed == "false" && button.target == id
         && button.prompt == NormalisePrompt(promptText))
    {
      if button == null {
        return false;
      }
      var normalized := NormalisePrompt(promptText);
      NormalisedEmptyIffBlank(promptText);
      if normalized == "" {
        return false;
      }
      button.bound := true;
      button.ariaPressed := "false";
      button.target := id;
      button.prompt := normalized;
      return true;
    }

    /**
     * `hydrateLegacyPrompts` with this composer as the only instance: every
     * element not yet bound is bound to its prompt (when that is not blank);
     * bound elements are left alone.
     */
    method HydrateLegacyPrompts(items: seq<PromptButton>)
      requires forall i, j :: 0 <= i < j < |items| ==> items[i] != items[j]
      modifies set i | 0 <= i < |items| :: items[i]
      ensures forall i :: 0 <= i < |items| && old(items[i].bound) ==>
        items[i].bound && items[i].ariaPressed == old(items[i].ariaPressed)
        && items[i].target == old(items[i].target) && items[i].prompt == old(items[i].prompt)
      ensures forall i :: 0 <= i < |items| && !old(items[i].bound) ==>
        (items[i].bound <==> !JsBlank(items[i].PromptSource()))
        && (items[i].bound ==> items[i].target == id && items[i].ariaPressed == "false"
                               && items[i].prompt == NormalisePrompt(items[i].PromptSource()))
        && (!items[i].bound ==> items[i].ariaPressed == old(items[i].ariaPressed)
                                && items[i].target == old(items[i].target) && items[i].prompt == old(items[i].prompt))
    {
      var k := 0;
      while k < |items|
        invariant 0 <= k <= |items|
        invariant forall i :: 0 <= i < |items| && (k <= i || old(items[i].bound)) ==>
          items[i].bound == old(items[i].bound) && items[i].ariaPressed == old(items[i].ariaPressed)
          && items[i].target == old(items[i].target) && items[i].prompt == old(items[i].prompt)
        invariant forall i :: 0 <= i < k && !old(items[i].bound) ==>
          (items[i].bound <==> !JsBlank(items[i].PromptSource()))
          && (items[i].bound ==> items[i].target == id && items[i].ariaPressed == "false"
                                 && items[i].prompt == NormalisePrompt(items[i].PromptSource()))
          && (!items[i].bound ==> items[i].ariaPressed == old(items[i].ariaPressed)
                                  && items[i].target == old(items[i].target) && items[i].prompt == old(items[i].prompt))
      {
        var item := items[k];
        if !item.bound {
          var _ := BindPrompt(item, item.PromptSource());
        }
        k := k + 1;
      }
    }
  }
}
