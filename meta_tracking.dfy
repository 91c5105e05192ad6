/**
  The Meta event tracker of src/lib/meta-tracking.ts. One call of
  `trackEvent` posts one event to the Conversions API and then, once the
  browser pixel `fbq` has loaded, repeats InitiateCheckout and Lead events on
  the pixel under the same event id. Every failure is swallowed.

  The browser and the network are parameters (`Env`): the two clock readings,
  the `Math.random()` rendering, `navigator.userAgent`, `document.cookie`,
  `window.location.href`, the outcome of `fetch`, and the value of
  `window.fbq` at each 100 ms poll. The effects are returned as a trace of
  calls (`Delivery`).
 */
module MetaTracking {
  import opened Wrappers
  import opened Text

  // ---------------------------------------------------------------------------
  // The event the caller describes
  // ---------------------------------------------------------------------------

  datatype ContentItem = ContentItem(id: string, quantity: int, title: Option<string>)

  datatype CustomData = CustomData(
    value: Option<real>,
    currency: Option<string>,
    contentName: Option<string>,
    contentCategory: Option<string>,
    contents: Option<seq<ContentItem>>)

  /** The object literal `{}`. */
  const EmptyCustomData := CustomData(None, None, None, None, None)

  /** The optional `userData` of an event: each field may be absent. */
  datatype UserDataOverride = UserDataOverride(
    clientUserAgent: Option<string>,
    fbp: Option<string>,
    fbc: Option<string>)

  datatype MetaEventData = MetaEventData(
    eventName: string,
    userData: Option<UserDataOverride>,
    customData: Option<CustomData>)

  datatype LeadData = LeadData(nome: string, cidade: string, custoEnergia: string, telefone: Option<string>)

  // ---------------------------------------------------------------------------
  // What is sent
  // ---------------------------------------------------------------------------

  /** A `user_data` value: a string, or `null` for a missing cookie. */
  datatype JsonValue = JNull | JString(s: string)

  datatype ServerEvent = ServerEvent(
    eventName: string,
    eventTime: nat,
    eventId: string,
    eventSourceUrl: string,
    actionSource: string,
    userData: map<UserDataKey, JsonValue>,
    customData: CustomData)

  datatype Payload = Payload(data: seq<ServerEvent>, accessToken: string)

  /** The two outward calls: the Conversions API POST and the pixel's `fbq('track', …)`. */
  datatype Call =
    | ConversionsPost(url: string, payload: Payload)
    | PixelTrack(eventName: string, params: map<string, string>, eventID: string)

  // ---------------------------------------------------------------------------
  // The environment
  // ---------------------------------------------------------------------------

  /** How `response.text()` ends for a non-2xx response. */
  datatype BodyOutcome = BodyRead | BodyRejected | BodyPending

  /** How the awaited `fetch` ends: never, by throwing, or with a response. */
  datatype FetchOutcome = FetchPending | FetchRejected | ResponseOk | ResponseNotOk(body: BodyOutcome)

  /** `window.fbq` at one poll: undefined, defined but falsy, a function, or truthy but not callable. */
  datatype FbqValue = FbqUndefined | FbqFalsy | FbqFunction | FbqNotCallable

  datatype Env = Env(
    idClockMs: nat,
    random: string,
    clockMs: nat,
    userAgent: string,
    cookie: string,
    href: string,
    fetch: FetchOutcome,
    fbqPolls: seq<FbqValue>)

  /** `trackEvent`'s promise has resolved, or is still pending at the end of the observed polls. */
  datatype Settlement = Resolved | StillWaiting

  datatype Delivery = Delivery(calls: seq<Call>, settlement: Settlement)

  // ---------------------------------------------------------------------------
  // getCookieValue, getFbp, getFbc
  // ---------------------------------------------------------------------------

  function CookieSeparator(name: string): string {
    "; " + name + "="
  }

  /**
    `getCookieValue(name)`: split `"; " + cookie` on `"; " + name + "="`;
    with exactly two pieces, the value is the second piece up to its first
    `;`, and an empty value is `null`.
   */
  function CookieValue(cookie: string, name: string): (r: Option<string>)
    ensures r.Some? ==> r.value != [] && ';' !in r.value
  {
    var parts := Split("; " + cookie, CookieSeparator(name));
    if |parts| == 2 then
      var v := Split(parts[1], ";")[0];
      SplitFirstPiece(parts[1], ';');
      if v == [] then None else Some(v)
    else
      None
  }

  function GetFbp(cookie: string): Option<string> {
    CookieValue(cookie, "_fbp")
  }

  function GetFbc(cookie: string): Option<string> {
    CookieValue(cookie, "_fbc")
  }

  /** The separator's only `;` is its first character. */
  lemma SeparatorShape(name: string)
    requires ';' !in name
    ensures CookieSeparator(name)[0] == ';'
    ensures forall k :: 0 < k < |CookieSeparator(name)| ==> CookieSeparator(name)[k] != ';'
  {
    var sep := CookieSeparator(name);
    forall k | 0 < k < |sep| ensures sep[k] != ';' {
      if 2 <= k < 2 + |name| {
        assert sep[k] == name[k - 2];
      }
    }
  }

  /** Occurrences of a separator whose only `;` leads it cannot overlap. */
  lemma NoOverlap(s: string, sep: string, p: nat, q: nat)
    requires sep != [] && sep[0] == ';'
    requires forall k :: 0 < k < |sep| ==> sep[k] != ';'
    requires OccursAt(s, sep, p) && OccursAt(s, sep, q) && p < q
    ensures p + |sep| <= q
  {
    assert s[q] == ';' by {
      assert s[q] == s[q..q + |sep|][0];
    }
    forall k | p < k < p + |sep| ensures s[k] != ';' {
      assert s[k] == s[p..p + |sep|][k - p];
    }
  }

  /** A string in which the separator occurs splits into at least two pieces. */
  lemma SplitHasTwo(s: string, sep: string, q: nat)
    requires sep != [] && OccursAt(s, sep, q)
    ensures |Split(s, sep)| >= 2
  {
    var r := IndexFrom(s, sep, 0);
    assert r.Some?;
  }

  /** An occurrence inside the text after an occurrence is an occurrence in the whole. */
  lemma OccursInRest(s: string, sep: string, start: nat, k: nat)
    requires start <= |s|
    ensures OccursAt(s[start..], sep, k) <==> OccursAt(s, sep, start + k)
  {
    if start + k + |sep| <= |s| {
      assert s[start..][k..k + |sep|] == s[start + k..start + k + |sep|];
    }
  }

  /**
    When the separator occurs exactly once, the cookie's value is the text
    after it up to the first `;`, or `null` when that text is empty.
   */
  lemma CookieFound(cookie: string, name: string, p: nat)
    requires OccursAt("; " + cookie, CookieSeparator(name), p)
    requires forall q :: OccursAt("; " + cookie, CookieSeparator(name), q) ==> q == p
    ensures var v := PrefixBefore(("; " + cookie)[p + |CookieSeparator(name)|..], ';');
      CookieValue(cookie, name) == if v == [] then None else Some(v)
  {
    var s, sep := "; " + cookie, CookieSeparator(name);
    assert IndexFrom(s, sep, 0) == Some(p);
    var rest := s[p + |sep|..];
    forall k | 0 <= k ensures !OccursAt(rest, sep, k) {
      OccursInRest(s, sep, p + |sep|, k);
    }
    assert IndexFrom(rest, sep, 0).None?;
    assert Split(s, sep) == [s[..p], rest];
    SplitFirstPiece(rest, ';');
  }

  /** Without the separator there is no value. */
  lemma CookieAbsent(cookie: string, name: string)
    requires forall q :: !OccursAt("; " + cookie, CookieSeparator(name), q)
    ensures CookieValue(cookie, name) == None
  {
    var s, sep := "; " + cookie, CookieSeparator(name);
    assert IndexFrom(s, sep, 0).None?;
    assert Split(s, sep) == [s];
  }

  /** The text from `start` on splits in two or more when the separator occurs there. */
  lemma SplitRestHasTwo(s: string, sep: string, start: nat, q: nat)
    requires sep != [] && start <= q && OccursAt(s, sep, q)
    ensures |Split(s[start..], sep)| >= 2
  {
    OccursInRest(s, sep, start, q - start);
    SplitHasTwo(s[start..], sep, q - start);
  }

  /** Splitting takes off the text before the first occurrence. */
  lemma SplitAtFirstOccurrence(s: string, sep: string, i: nat)
    requires sep != [] && IndexFrom(s, sep, 0) == Some(i)
    ensures i + |sep| <= |s|
    ensures |Split(s, sep)| == 1 + |Split(s[i + |sep|..], sep)|
  {
  }

  /** `indexOf` finds an occurrence at or before any given one. */
  lemma FirstOccurrence(s: string, sep: string, p: nat)
    requires sep != [] && OccursAt(s, sep, p)
    ensures IndexFrom(s, sep, 0).Some? && IndexFrom(s, sep, 0).value <= p
  {
  }

  /** An occurrence after the end of the first one gives a third piece. */
  lemma SplitPastFirst(s: string, sep: string, first: nat, second: nat)
    requires sep != [] && IndexFrom(s, sep, 0) == Some(first)
    requires first + |sep| <= second && OccursAt(s, sep, second)
    ensures |Split(s, sep)| >= 3
  {
    var rest := s[first + |sep|..];
    assert |Split(rest, sep)| >= 2 by {
      SplitRestHasTwo(s, sep, first + |sep|, second);
    }
    SplitAtFirstOccurrence(s, sep, first);
  }

  /** Two occurrences of a separator whose only `;` leads it give at least three pieces. */
  lemma SplitHasThree(s: string, sep: string, p: nat, q: nat)
    requires sep != [] && sep[0] == ';'
    requires forall k :: 0 < k < |sep| ==> sep[k] != ';'
    requires OccursAt(s, sep, p) && OccursAt(s, sep, q) && p != q
    ensures |Split(s, sep)| >= 3
  {
    FirstOccurrence(s, sep, p);
    FirstOccurrence(s, sep, q);
    var first := IndexFrom(s, sep, 0).value;
    var second := if p != first then p else q;
    assert first + |sep| <= second by {
      NoOverlap(s, sep, first, second);
    }
    SplitPastFirst(s, sep, first, second);
  }

  /** A cookie set twice (say on two paths) is not read at all. */
  lemma CookieRepeated(cookie: string, name: string, p: nat, q: nat)
    requires ';' !in name
    requires OccursAt("; " + cookie, CookieSeparator(name), p)
    requires OccursAt("; " + cookie, CookieSeparator(name), q)
    requires p != q
    ensures CookieValue(cookie, name) == None
  {
    SeparatorShape(name);
    SplitHasThree("; " + cookie, CookieSeparator(name), p, q);
  }

  // ---------------------------------------------------------------------------
  // generateEventId
  // ---------------------------------------------------------------------------

  /** `s.substr(start, len)` for non-negative arguments. */
  function Substr(s: string, start: nat, len: nat): (r: string)
    ensures |r| <= len
    ensures start <= |s| ==> start + |r| <= |s| && s[start..] == r + s[start + |r|..]
  {
    var b := if start < |s| then start else |s|;
    var e := if b + len < |s| then b + len else |s|;
    s[b..e]
  }

  /**
    `Date.now().toString() + Math.random().toString(36).substr(2, 9)`: the
    millisecond clock in decimal, then at most nine characters of the random
    rendering after its leading `0.`.
   */
  function GenerateEventId(nowMs: nat, random: string): (id: string)
    ensures |id| == |Decimal(nowMs)| + (if |random| <= 2 then 0 else if |random| >= 11 then 9 else |random| - 2)
    ensures id[..|Decimal(nowMs)|] == Decimal(nowMs)
    ensures |random| >= 2 ==>
      2 + |id| - |Decimal(nowMs)| <= |random|
      && random[2..] == id[|Decimal(nowMs)|..] + random[2 + |id| - |Decimal(nowMs)|..]
  {
    var prefix := Decimal(nowMs);
    var suffix := Substr(random, 2, 9);
    assert (prefix + suffix)[..|prefix|] == prefix;
    assert (prefix + suffix)[|prefix|..] == suffix;
    prefix + suffix
  }

  // ---------------------------------------------------------------------------
  // The payload
  // ---------------------------------------------------------------------------

  function CookieJson(v: Option<string>): (j: JsonValue)
    ensures j.JNull? <==> v.None?
  {
    match v
    case None => JNull
    case Some(s) => JString(s)
  }

  /**
    The keys of `user_data`: the four the defaults set, and the camel-case
    `clientUserAgent` that spreading an event's `userData` can add.
   */
  datatype UserDataKey = ClientIpAddress | ClientUserAgent | Fbp | Fbc | CamelCaseUserAgent {
    function JsonName(): string {
      match this
      case ClientIpAddress => "client_ip_address"
      case ClientUserAgent => "client_user_agent"
      case Fbp => "fbp"
      case Fbc => "fbc"
      case CamelCaseUserAgent => "clientUserAgent"
    }
  }

  /** The `user_data` defaults: empty IP, the browser's user agent, the two cookies. */
  function DefaultUserData(userAgent: string, cookie: string): (r: map<UserDataKey, JsonValue>)
    ensures r.Keys == {ClientIpAddress, ClientUserAgent, Fbp, Fbc}
    ensures r[ClientIpAddress] == JString("")
  {
    map[
      ClientIpAddress := JString(""),
      ClientUserAgent := JString(userAgent),
      Fbp := CookieJson(GetFbp(cookie)),
      Fbc := CookieJson(GetFbc(cookie))]
  }

  /** Spreading one optional field: an absent field leaves the key as it was. */
  function Put(m: map<UserDataKey, JsonValue>, key: UserDataKey, v: Option<string>): (r: map<UserDataKey, JsonValue>)
    ensures r.Keys == m.Keys + (if v.Some? then {key} else {})
    ensures key in m ==> r.Keys == m.Keys
    ensures v.None? ==> r == m
    ensures v.Some? ==> r[key] == JString(v.value)
    ensures forall k :: k in m && k != key ==> r[k] == m[k]
  {
    if v.Some? then m[key := JString(v.value)] else m
  }

  /**
    `{ …defaults, …eventData.userData }` as written: the object's keys are
    `clientUserAgent`, `fbp` and `fbc`, so a user agent given by the caller
    lands under a fifth key of its own.
   */
  function UserDataAsWritten(userAgent: string, cookie: string, o: Option<UserDataOverride>): map<UserDataKey, JsonValue> {
    var d := DefaultUserData(userAgent, cookie);
    match o
    case None => d
    case Some(u) => Put(Put(Put(d, CamelCaseUserAgent, u.clientUserAgent), Fbp, u.fbp), Fbc, u.fbc)
  }

  /** The override the defaults evidently intend: each given field replaces its default. */
  function UserData(userAgent: string, cookie: string, o: Option<UserDataOverride>): (r: map<UserDataKey, JsonValue>)
    ensures r.Keys == {ClientIpAddress, ClientUserAgent, Fbp, Fbc}
    ensures r[ClientIpAddress] == JString("")
  {
    var d := DefaultUserData(userAgent, cookie);
    match o
    case None => d
    case Some(u) => Put(Put(Put(d, ClientUserAgent, u.clientUserAgent), Fbp, u.fbp), Fbc, u.fbc)
  }

  /** The field the caller gives for `key`, if it gives one, else `default`. */
  function Override(given: Option<UserDataOverride>, key: UserDataKey, default: JsonValue): JsonValue {
    match given
    case None => default
    case Some(u) =>
      var v := match key
        case ClientUserAgent => u.clientUserAgent
        case Fbp => u.fbp
        case Fbc => u.fbc
        case _ => None;
      if v.Some? then JString(v.value) else default
  }

  /** Each of `client_user_agent`, `fbp` and `fbc` is overridden field by field. */
  lemma UserDataFieldByField(userAgent: string, cookie: string, o: Option<UserDataOverride>)
    ensures var r := UserData(userAgent, cookie, o);
      && r[ClientUserAgent] == Override(o, ClientUserAgent, JString(userAgent))
      && r[Fbp] == Override(o, Fbp, CookieJson(GetFbp(cookie)))
      && r[Fbc] == Override(o, Fbc, CookieJson(GetFbc(cookie)))
  {
  }

  /** As written, a user agent given by the caller does not reach `client_user_agent`. */
  lemma UserAgentOverrideIgnored(userAgent: string, cookie: string, given: string)
    requires given != userAgent
    ensures var r := UserDataAsWritten(userAgent, cookie, Some(UserDataOverride(Some(given), None, None)));
      && r[ClientUserAgent] == JString(userAgent)
      && r[ClientUserAgent] != JString(given)
      && CamelCaseUserAgent in r && r[CamelCaseUserAgent] == JString(given)
  {
  }

  /**
    Without a caller-given user agent the map as written is the corrected
    one, so the two differ only in the case the finding describes.
   */
  lemma UserDataAgree(userAgent: string, cookie: string, o: Option<UserDataOverride>)
    requires o.None? || o.value.clientUserAgent.None?
    ensures UserDataAsWritten(userAgent, cookie, o) == UserData(userAgent, cookie, o)
  {
  }

  /**
    The single server event: `event_time` is the clock in whole seconds,
    rounded down, and absent `customData` is sent as `{}`.
   */
  function BuildPayload(e: MetaEventData, env: Env, eventId: string, accessToken: string): (p: Payload)
    ensures |p.data| == 1 && p.accessToken == accessToken
    ensures var ev := p.data[0];
      && ev.eventName == e.eventName && ev.eventId == eventId
      && ev.eventTime * 1000 <= env.clockMs < ev.eventTime * 1000 + 1000
      && ev.eventSourceUrl == env.href && ev.actionSource == "website"
      && ev.userData == UserDataAsWritten(env.userAgent, env.cookie, e.userData)
      && ev.customData == (if e.customData.Some? then e.customData.value else EmptyCustomData)
  {
    var ev := ServerEvent(
      e.eventName,
      env.clockMs / 1000,
      eventId,
      env.href,
      "website",
      UserDataAsWritten(env.userAgent, env.cookie, e.userData),
      e.customData.GetOr(EmptyCustomData));
    Payload([ev], accessToken)
  }

  // ---------------------------------------------------------------------------
  // The pixel step
  // ---------------------------------------------------------------------------

  /** The first poll at which `fbq` is no longer undefined: where `waitForFbq` resolves. */
  function FirstDefined(polls: seq<FbqValue>): (r: Option<nat>)
    ensures r.Some? ==> r.value < |polls| && polls[r.value] != FbqUndefined
    ensures r.Some? ==> forall j :: 0 <= j < r.value ==> polls[j] == FbqUndefined
    ensures r.None? ==> forall j :: 0 <= j < |polls| ==> polls[j] == FbqUndefined
  {
    if polls == [] then None
    else if polls[0] != FbqUndefined then Some(0)
    else
      match FirstDefined(polls[1..])
      case None => None
      case Some(i) => Some(i + 1)
  }

  /** The pixel calls made once `fbq` is read: only InitiateCheckout and Lead, only on a function. */
  function PixelCalls(e: MetaEventData, fbq: FbqValue, eventId: string): (calls: seq<Call>)
    ensures |calls| <= 1
    ensures |calls| == 1 <==> fbq == FbqFunction && (e.eventName == "InitiateCheckout" || e.eventName == "Lead")
    ensures |calls| == 1 ==> calls[0].PixelTrack? && calls[0].eventName == e.eventName && calls[0].eventID == eventId
    ensures var name :=
        if e.customData.Some? && e.customData.value.contentName.Some? then e.customData.value.contentName.value else "";
      var category :=
        if e.customData.Some? && e.customData.value.contentCategory.Some? then e.customData.value.contentCategory.value else "";
      && (|calls| == 1 && e.eventName == "InitiateCheckout" ==>
            calls[0].params.Keys == {"content_name", "content_category"}
            && calls[0].params["content_name"] == name && calls[0].params["content_category"] == category)
      && (|calls| == 1 && e.eventName == "Lead" ==>
            calls[0].params.Keys == {"content_name"} && calls[0].params["content_name"] == name)
  {
    var cd := e.customData.GetOr(EmptyCustomData);
    if fbq != FbqFunction then []
    else if e.eventName == "InitiateCheckout" then
      [PixelTrack("InitiateCheckout",
        map["content_name" := cd.contentName.GetOr(""), "content_category" := cd.contentCategory.GetOr("")],
        eventId)]
    else if e.eventName == "Lead" then
      [PixelTrack("Lead", map["content_name" := cd.contentName.GetOr("")], eventId)]
    else []
  }

  /** The dispatch got past the Conversions API step (a non-2xx response with a readable body included). */
  predicate ReachesPixelStep(f: FetchOutcome) {
    f == ResponseOk || f == ResponseNotOk(BodyRead)
  }

  /** The dispatch is still awaiting the network. */
  predicate NetworkPending(f: FetchOutcome) {
    f == FetchPending || f == ResponseNotOk(BodyPending)
  }

  const AccessToken := "<Conversions API access token>"
  const PixelId := "612824875159097"

  class MetaTracking {
    const accessToken: string
    const pixelId: string
    const apiUrl: string

    constructor()
      ensures accessToken == AccessToken && pixelId == PixelId
      ensures apiUrl == "https://graph.facebook.com/v18.0/" + PixelId + "/events"
    {
      accessToken := AccessToken;
      pixelId := PixelId;
      apiUrl := "https://graph.facebook.com/v18.0/" + PixelId + "/events";
    }

    function Post(e: MetaEventData, env: Env): Call {
      ConversionsPost(apiUrl, BuildPayload(e, env, GenerateEventId(env.idClockMs, env.random), accessToken))
    }

    /**
      What one `trackEvent(e)` does in `env`: the POST always goes first;
      a thrown `fetch` or an unreadable error body ends the call quietly;
      otherwise it waits for `fbq` and, if the wait ends, makes the pixel
      call the event name and `fbq` allow.
     */
    function Deliver(e: MetaEventData, env: Env): (d: Delivery)
      ensures 1 <= |d.calls| <= 2 && d.calls[0] == Post(e, env)
      ensures d.calls[0].payload.data[0].eventId == GenerateEventId(env.idClockMs, env.random)
      ensures |d.calls| == 2 ==> d.calls[1].PixelTrack? && d.calls[1].eventID == d.calls[0].payload.data[0].eventId
      ensures |d.calls| == 2 ==>
        && FirstDefined(env.fbqPolls).Some?
        && d.calls[1..] == PixelCalls(e, env.fbqPolls[FirstDefined(env.fbqPolls).value], d.calls[0].payload.data[0].eventId)
      ensures |d.calls| == 2 <==>
        ReachesPixelStep(env.fetch) && FirstDefined(env.fbqPolls).Some?
        && env.fbqPolls[FirstDefined(env.fbqPolls).value] == FbqFunction
        && (e.eventName == "InitiateCheckout" || e.eventName == "Lead")
      ensures d.settlement == StillWaiting <==>
        NetworkPending(env.fetch) || (ReachesPixelStep(env.fetch) && FirstDefined(env.fbqPolls).None?)
    {
      var eventId := GenerateEventId(env.idClockMs, env.random);
      var post := Post(e, env);
      if NetworkPending(env.fetch) then Delivery([post], StillWaiting)
      else if !ReachesPixelStep(env.fetch) then Delivery([post], Resolved)
      else
        match FirstDefined(env.fbqPolls)
        case None => Delivery([post], StillWaiting)
        case Some(i) => Delivery([post] + PixelCalls(e, env.fbqPolls[i], eventId), Resolved)
    }

    /** `waitForFbq`: check at once, then again after each 100 ms. */
    method WaitForFbq(polls: seq<FbqValue>) returns (r: Option<nat>)
      ensures r == FirstDefined(polls)
    {
      var i := 0;
      while i < |polls| && polls[i] == FbqUndefined
        invariant 0 <= i <= |polls|
        invariant forall j :: 0 <= j < i ==> polls[j] == FbqUndefined
      {
        i := i + 1;
      }
      if i < |polls| {
        r := Some(i);
      } else {
        r := None;
      }
      FirstDefinedUnique(polls, r);
    }

    /** `trackEvent`: the dispatch sequence inside its catch-all. */
    method TrackEvent(e: MetaEventData, env: Env) returns (d: Delivery)
      ensures d == Deliver(e, env)
    {
      var eventId := GenerateEventId(env.idClockMs, env.random);
      var payload := BuildPayload(e, env, eventId, accessToken);
      var calls := [ConversionsPost(apiUrl, payload)];
      match env.fetch {
        case FetchPending =>
          return Delivery(calls, StillWaiting);
        case FetchRejected =>
          return Delivery(calls, Resolved);
        case ResponseNotOk(BodyPending) =>
          return Delivery(calls, StillWaiting);
        case ResponseNotOk(BodyRejected) =>
          return Delivery(calls, Resolved);
        case _ =>
      }
      var ready := WaitForFbq(env.fbqPolls);
      if ready.None? {
        return Delivery(calls, StillWaiting);
      }
      var fbq := env.fbqPolls[ready.value];
      calls := calls + PixelCalls(e, fbq, eventId);
      d := Delivery(calls, Resolved);
    }

    /** `trackInitiateCheckout(lead)`. */
    method TrackInitiateCheckout(lead: LeadData, env: Env) returns (d: Delivery)
      ensures d == Deliver(InitiateCheckoutEvent(lead), env)
    {
      d := TrackEvent(InitiateCheckoutEvent(lead), env);
    }
  }

  /** The first-defined index is determined by the polls. */
  lemma FirstDefinedUnique(polls: seq<FbqValue>, r: Option<nat>)
    requires r.Some? ==> r.value < |polls| && polls[r.value] != FbqUndefined
    requires r.Some? ==> forall j :: 0 <= j < r.value ==> polls[j] == FbqUndefined
    requires r.None? ==> forall j :: 0 <= j < |polls| ==> polls[j] == FbqUndefined
    ensures r == FirstDefined(polls)
  {
    var f := FirstDefined(polls);
    if r.Some? && f.Some? {
      assert !(r.value < f.value) && !(f.value < r.value);
    }
  }

  /** The event `trackInitiateCheckout` builds from a lead. */
  function InitiateCheckoutEvent(lead: LeadData): (e: MetaEventData)
    ensures e.eventName == "InitiateCheckout" && e.userData.None? && e.customData.Some?
    ensures var cd := e.customData.value;
      && cd.contentName == Some("Energia Solar - Orçamento")
      && cd.contentCategory == Some("Energia Solar")
      && cd.value.None? && cd.currency.None?
      && cd.contents == Some([ContentItem("solar-quote", 1, Some("Orçamento Energia Solar - " + lead.cidade))])
  {
    MetaEventData(
      "InitiateCheckout",
      None,
      Some(CustomData(
        None,
        None,
        Some("Energia Solar - Orçamento"),
        Some("Energia Solar"),
        Some([ContentItem("solar-quote", 1, Some("Orçamento Energia Solar - " + lead.cidade))]))))
  }

  /** Of the lead only the city is sent: name, phone and energy cost never leave the page. */
  lemma InitiateCheckoutOnlyCity(a: LeadData, b: LeadData)
    requires a.cidade == b.cidade
    ensures InitiateCheckoutEvent(a) == InitiateCheckoutEvent(b)
  {
  }

  /** When the pixel fires for a lead, it carries the fixed name and category. */
  lemma InitiateCheckoutPixel(t: MetaTracking, lead: LeadData, env: Env)
    requires |t.Deliver(InitiateCheckoutEvent(lead), env).calls| == 2
    ensures var c := t.Deliver(InitiateCheckoutEvent(lead), env).calls[1];
      c == PixelTrack("InitiateCheckout",
        map["content_name" := "Energia Solar - Orçamento", "content_category" := "Energia Solar"],
        t.Deliver(InitiateCheckoutEvent(lead), env).calls[0].payload.data[0].eventId)
  {
  }

  /** `trackWhatsAppClick(lead)`, on the module's singleton tracker. */
  method TrackWhatsAppClick(tracker: MetaTracking, lead: LeadData, env: Env) returns (d: Delivery)
    ensures d == tracker.Deliver(InitiateCheckoutEvent(lead), env)
  {
    d := tracker.TrackInitiateCheckout(lead, env);
  }
}
