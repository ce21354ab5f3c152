/**
 * luna-chat.js: the composer of the Luna chat pages. A prompt is queued in
 * session storage and the visitor is sent to the response page, which takes
 * the queued prompt (once) and posts it to the chat endpoint.
 */
module LunaChat {

  import opened Common
  import opened Text
  import Html

  /** The path of the response page. */
  const ResponsePath: string := "/products/luna/chat/response"

  /** How long a queued prompt stays usable, in milliseconds. */
  const QueueLifetime: int := 5 * 60 * 1000

  /** The client asked about when the page names none. */
  const FallbackClient: string := "commonwealthhealthservices"

  /** The message shown when a request fails. */
  const FailureMessage: string := "Sorry, something went wrong reaching Luna. Please try again."

  /** `composeClient` when it is a non-empty string, otherwise the fallback. */
  function DefaultClient(composeClient: JsVal): (r: string)
    ensures r != ""
    ensures composeClient.JStr? && composeClient.s != "" ==> r == composeClient.s
  {
    if composeClient.JStr? && composeClient.s != "" then composeClient.s else FallbackClient
  }

  /** `pathname.replace(/\/+$/, '')`. */
  function StripSlashes(s: string): string {
    TrimRight(s, {'/'})
  }

  /** `isResponseRoute`: the path, without trailing slashes, is the target or lies below it. */
  function IsResponseRoute(pathname: string): bool {
    var p := StripSlashes(pathname);
    var target := StripSlashes(ResponsePath);
    p == target || StartsWith(p, target + "/")
  }

  /** `p` is `base` itself, `base` followed by slashes, or a path below `base`. */
  predicate Under(p: string, base: string) {
    StartsWith(p, base) && (|p| == |base| || p[|base|] == '/')
  }

  /** Stripping trailing slashes, then comparing, is the segment-boundary prefix test. */
  lemma RouteMatchIsUnder(p: string, base: string)
    requires base != [] && base[|base| - 1] != '/'
    ensures var q := StripSlashes(p); q == base || StartsWith(q, base + "/") <==> Under(p, base)
  {
    var n := TrailingFrom(p, {'/'});
    var q := p[..n];
    assert StripSlashes(p) == q;
    if q == base {
      assert p[..|base|] == base;
      if |p| > n {
        assert p[n] in {'/'};
      }
    } else if StartsWith(q, base + "/") {
      assert p[..|base|] == q[..|base|] == (base + "/")[..|base|] == base;
      assert p[|base|] == q[|base|] == (base + "/")[|base|];
    }
    if Under(p, base) {
      assert p[|base| - 1] == base[|base| - 1];
      assert p[|base| - 1] !in {'/'};
      assert n >= |base|;
      assert q[..|base|] == base;
      if n > |base| {
        assert p[|base|] == q[|base|];
        assert q[..|base| + 1] == base + "/";
      }
    }
  }

  /** The response path has no trailing slash. */
  lemma ResponsePathStripped()
    ensures StripSlashes(ResponsePath) == ResponsePath
    ensures ResponsePath != [] && ResponsePath[|ResponsePath| - 1] != '/'
  {
    var s := ResponsePath;
    assert s[|s| - 1] == 'e';
    var n := TrailingFrom(s, {'/'});
    assert s[|s| - 1] !in {'/'};
    assert n == |s|;
  }

  /** The page is the response route exactly when its path is the response path or lies below it. */
  lemma ResponseRouteIff(pathname: string)
    ensures IsResponseRoute(pathname) <==> Under(pathname, ResponsePath)
  {
    ResponsePathStripped();
    RouteMatchIsUnder(pathname, ResponsePath);
  }

  /** What session storage holds under `luna-compose-queued-prompt`, once parsed. */
  datatype Slot =
    | Blank                                             // the empty string
    | Garbage                                           // not JSON, or JSON that is not an object
    | Payload(prompt: JsVal, client: JsVal, ts: JsVal)  // an object

  /** A prompt taken from the queue. */
  datatype Queued = Queued(prompt: string, client: string)

  /** What `queuePromptForResponse` stores. */
  function Enqueue(prompt: string, client: string, now: int, defaultClient: string): Slot {
    Payload(JStr(prompt), JStr(if client == "" then defaultClient else client), JNum(now))
  }

  /** `payload.ts && Date.now() - payload.ts > 5 * 60 * 1000`, for a stamp JSON gives back as a number. */
  predicate Expired(ts: JsVal, now: int) {
    JsTruthy(ts) && ts.JNum? && now - ts.n > QueueLifetime
  }

  /** What `takeQueuedPrompt` returns for a stored item. */
  function ReadQueued(slot: Slot, now: int, defaultClient: string): (r: Option<Queued>)
    ensures r.Some? ==> slot.Payload? && slot.prompt == JStr(r.value.prompt) && !Expired(slot.ts, now)
    ensures slot.Payload? && slot.prompt.JStr? && !Expired(slot.ts, now) ==> r.Some?
    ensures r.Some? ==> r.value.client == if slot.client.JStr? && slot.client.s != "" then slot.client.s else defaultClient
  {
    match slot
    case Payload(prompt, client, ts) =>
      if !prompt.JStr? || Expired(ts, now) then None
      else Some(Queued(prompt.s, if client.JStr? && client.s != "" then client.s else defaultClient))
    case _ => None
  }

  /**
   * A queued prompt comes back with its client (or the default) until five
   * minutes have passed; a stamp of 0 never expires.
   */
  lemma QueueRoundTrip(prompt: string, client: string, stamp: int, now: int, defaultClient: string)
    ensures ReadQueued(Enqueue(prompt, client, stamp, defaultClient), now, defaultClient) ==
      if stamp != 0 && now - stamp > QueueLifetime then None
      else Some(Queued(prompt, if client == "" then defaultClient else client))
  {
  }

  /** `options.client` trimmed, when it is a non-blank string; otherwise the default client. */
  function TargetClient(client: JsVal, defaultClient: string): (r: string)
    ensures defaultClient != "" ==> r != ""
    ensures client.JStr? && !JsBlank(client.s) ==> r == JsTrim(client.s)
  {
    JsTrimEmptyIffBlank(if client.JStr? then client.s else "");
    if client.JStr? && JsTrim(client.s) != "" then JsTrim(client.s) else defaultClient
  }

  /**
   * Resolving a resolved client again gives it back when the default is
   * trimmed, so the queued and the sent client then agree; an untrimmed
   * `composeClient` is queued as it is but sent trimmed.
   */
  lemma TargetClientIdempotent(client: JsVal, defaultClient: string)
    requires JsTrim(defaultClient) == defaultClient
    ensures TargetClient(JStr(TargetClient(client, defaultClient)), defaultClient) == TargetClient(client, defaultClient)
  {
    if client.JStr? {
      JsTrimIdempotent(client.s);
    }
  }

  /** The answer `sendPrompt` shows: a string `answer`, else a string `message`, else nothing. */
  function PickAnswer(answer: JsVal, message: JsVal): string {
    if answer.JStr? then answer.s else if message.JStr? then message.s else ""
  }

  /** What the chat endpoint replied: nothing usable (network error, non-2xx, bad JSON), or a JSON body. */
  datatype Reply = Unusable | Body(answer: JsVal, message: JsVal)

  /** What the response area shows. */
  datatype Display = Idle | Answer(html: string) | Failure(message: string)

  /** The outcome a reply leads to. */
  function Outcome(reply: Reply): (d: Display)
    ensures d.Answer? <==> reply.Body? && PickAnswer(reply.answer, reply.message) != ""
    ensures d.Answer? ==> d.html == Html.ChatFormatAnswer(JStr(PickAnswer(reply.answer, reply.message)))
    ensures !d.Answer? ==> d == Failure(FailureMessage)
  {
    if reply.Unusable? then Failure(FailureMessage)
    else
      var answer := PickAnswer(reply.answer, reply.message);
      if answer == "" then Failure(FailureMessage) else Answer(Html.ChatFormatAnswer(JStr(answer)))
  }

  /** A string `answer` is shown even when `message` is also set, and an empty one is a failure. */
  lemma AnswerBeforeMessage(a: string, message: JsVal)
    ensures Outcome(Body(JStr(a), message)) == if a == "" then Failure(FailureMessage) else Answer(Html.ChatFormatAnswer(JStr(a)))
  {
  }

  /** A prompt posted to the chat endpoint. */
  datatype Request = Request(prompt: string, client: string)

  class ChatPage {
    /** The client asked about by default. */
    const defaultClient: string
    /** `window.location.pathname`. */
    const pathname: string
    /** The queued prompt in session storage. */
    var stored: Option<Slot>
    /** A request is in flight. */
    var submitting: bool
    /** The submit button is disabled. */
    var buttonDisabled: bool
    /** What the response area shows. */
    var display: Display
    /** The requests posted so far. */
    var sent: seq<Request>
    /** The page has been sent to the response route. */
    var redirected: bool
    /** A suggested-prompt button is marked active. */
    var activePrompt: bool

    /** The submit button is disabled exactly while a request is in flight. */
    ghost predicate Valid()
      reads this
    {
      defaultClient != "" && buttonDisabled == submitting
    }

    constructor(composeClient: JsVal, pathname: string, stored: Option<Slot>)
      ensures Valid() && !submitting && display == Idle && sent == [] && !redirected
      ensures this.defaultClient == DefaultClient(composeClient) && this.pathname == pathname && this.stored == stored
    {
      defaultClient := DefaultClient(composeClient);
      this.pathname := pathname;
      this.stored := stored;
      submitting := false;
      buttonDisabled := false;
      display := Idle;
      sent := [];
      redirected := false;
      activePrompt := false;
    }

    /** `queuePromptForResponse`: store the prompt, its client (or the default) and the time. */
    method QueuePromptForResponse(prompt: string, client: string, now: int)
      modifies this
      ensures stored == Some(Enqueue(prompt, client, now, defaultClient))
      ensures submitting == old(submitting) && buttonDisabled == old(buttonDisabled) && display == old(display)
      ensures sent == old(sent) && redirected == old(redirected) && activePrompt == old(activePrompt)
    {
      stored := Some(Enqueue(prompt, client, now, defaultClient));
    }

    /**
     * `takeQueuedPrompt`: nothing when storage is empty; otherwise the item
     * is removed before it is parsed, so it is used at most once.
     */
    method TakeQueuedPrompt(now: int) returns (r: Option<Queued>)
      modifies this
      ensures old(stored).None? || old(stored) == Some(Blank) ==> r.None? && stored == old(stored)
      ensures old(stored).Some? && old(stored) != Some(Blank) ==>
        stored.None? && r == ReadQueued(old(stored).value, now, defaultClient)
      ensures submitting == old(submitting) && buttonDisabled == old(buttonDisabled) && display == old(display)
      ensures sent == old(sent) && redirected == old(redirected) && activePrompt == old(activePrompt)
    {
      if stored.None? || stored == Some(Blank) {
        return None;
      }
      var slot := stored.value;
      stored := None;
      match slot {
        case Payload(prompt, client, ts) =>
          if !prompt.JStr? {
            return None;
          }
          if Expired(ts, now) {
            return None;
          }
          var c := if client.JStr? && client.s != "" then client.s else defaultClient;
          return Some(Queued(prompt.s, c));
        case _ =>
          return None;
      }
    }

    /** `setLoading`: the in-flight flag and the button follow `flag`. */
    method SetLoading(flag: bool)
      requires Valid()
      modifies this
      ensures Valid() && submitting == flag
      ensures stored == old(stored) && display == old(display) && sent == old(sent)
      ensures redirected == old(redirected) && activePrompt == old(activePrompt)
    {
      submitting := flag;
      buttonDisabled := flag;
    }

    /**
     * `sendPrompt`: ignored for an empty prompt or while a request is in
     * flight; otherwise post the prompt and show the answer or the failure,
     * clearing the in-flight flag whatever happened.
     */
    method SendPrompt(prompt: string, client: JsVal, reply: Reply)
      requires Valid()
      modifies this
      ensures Valid() && stored == old(stored) && redirected == old(redirected) && activePrompt == old(activePrompt)
      ensures prompt == "" || old(submitting) ==>
        submitting == old(submitting) && display == old(display) && sent == old(sent)
      ensures prompt != "" && !old(submitting) ==>
        && !submitting
        && sent == old(sent) + [Request(prompt, TargetClient(client, defaultClient))]
        && display == Outcome(reply)
    {
      if prompt == "" || submitting {
        return;
      }
      SetLoading(true);
      var target := TargetClient(client, defaultClient);
      sent := sent + [Request(prompt, target)];
      if reply.Unusable? {
        display := Failure(FailureMessage);
      } else {
        var answer := PickAnswer(reply.answer, reply.message);
        if answer == "" {
          display := Failure(FailureMessage);
        } else {
          display := Answer(Html.ChatFormatAnswer(JStr(answer)));
        }
      }
      SetLoading(false);
    }

    /**
     * `attemptSubmit`: a blank prompt is refused and nothing is queued;
     * otherwise the trimmed prompt is queued with its client, then sent
     * when already on the response route or the page is redirected there.
     */
    method AttemptSubmit(explicit: JsVal, editorText: string, client: JsVal, fromPrompt: bool, now: int, reply: Reply)
      returns (ok: bool)
      requires Valid()
      modifies this
      ensures Valid()
      ensures var prompt := JsTrim(if explicit.JStr? then explicit.s else EditorValue(editorText));
        && (ok <==> prompt != "")
        && (!ok ==> stored == old(stored) && sent == old(sent) && display == old(display) && redirected == old(redirected)
                    && activePrompt == old(activePrompt))
        && (ok ==> stored == Some(Enqueue(prompt, TargetClient(client, defaultClient), now, defaultClient)))
        && (ok && !IsResponseRoute(pathname) ==> redirected && sent == old(sent))
        && (ok && IsResponseRoute(pathname) && !old(submitting) ==>
             && sent == old(sent) + [Request(prompt, TargetClient(JStr(TargetClient(client, defaultClient)), defaultClient))]
             && display == Outcome(reply))
        && (ok && IsResponseRoute(pathname) && old(submitting) ==> sent == old(sent) && display == old(display))
        && (ok && IsResponseRoute(pathname) ==> redirected == old(redirected))
        && (ok && !fromPrompt ==> !activePrompt)
        && (fromPrompt ==> activePrompt == old(activePrompt))
    {
      var raw := if explicit.JStr? then explicit.s else EditorValue(editorText);
      var prompt := JsTrim(raw);
      if prompt == "" {
        return false;
      }
      var c := TargetClient(client, defaultClient);
      QueuePromptForResponse(prompt, c, now);
      if IsResponseRoute(pathname) {
        SendPrompt(prompt, JStr(c), reply);
      } else {
        redirected := true;
      }
      if !fromPrompt {
        activePrompt := false;
      }
      return true;
    }
  }

  /** `getEditorValue`: the editor text with no-break spaces made plain, trimmed. */
  function EditorValue(text: string): string {
    JsTrim(ReplaceChar(text, '\U{A0}', " "))
  }
}
