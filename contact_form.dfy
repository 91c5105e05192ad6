/**
  The lead form of src/components/ContactForm.tsx: four text fields, the
  completion predicate that gates both buttons, the keystroke normalisation
  of each field, the EmailJS submission with its two deferred resets, and
  the WhatsApp handoff that waits for the Meta tracker before opening the
  chat link.

  The pure functions on `FormState` are the specification of each handler;
  the class `Component` holds the same state in fields and its methods are
  proved to move it exactly as those functions say. The interaction with
  the outside world (EmailJS, the tracker's calls, `window.open`) and the
  outcome of each email send are recorded, in order, in `log`.
 */
module ContactForm {
  import opened Wrappers
  import opened Text
  import opened UriComponent
  import opened Formatters
  import opened MetaTracking

  // ---------------------------------------------------------------------------
  // The form's fields
  // ---------------------------------------------------------------------------

  datatype FormData = FormData(nome: string, telefone: string, cidade: string, custoEnergia: string)

  const EmptyForm := FormData("", "", "", "")

  datatype Field = Nome | Telefone | Cidade | CustoEnergia

  function Get(f: FormData, field: Field): string {
    match field
    case Nome => f.nome
    case Telefone => f.telefone
    case Cidade => f.cidade
    case CustoEnergia => f.custoEnergia
  }

  /** `{ ...prev, [field]: value }`. */
  function With(f: FormData, field: Field, value: string): (r: FormData)
    ensures Get(r, field) == value
    ensures forall g :: g != field ==> Get(r, g) == Get(f, g)
  {
    match field
    case Nome => f.(nome := value)
    case Telefone => f.(telefone := value)
    case Cidade => f.(cidade := value)
    case CustoEnergia => f.(custoEnergia := value)
  }

  /** `isFormComplete`: no field is blank (`CompleteIffTrimmed` gives the `trim()` form). */
  predicate IsComplete(f: FormData) {
    !Blank(f.nome) && !Blank(f.telefone) && !Blank(f.cidade) && !Blank(f.custoEnergia)
  }

  /** The source's test: each field is non-empty once trimmed. */
  lemma CompleteIffTrimmed(f: FormData)
    ensures IsComplete(f) <==>
      Trim(f.nome) != [] && Trim(f.telefone) != [] && Trim(f.cidade) != [] && Trim(f.custoEnergia) != []
  {
  }

  // ---------------------------------------------------------------------------
  // handleInputChange
  // ---------------------------------------------------------------------------

  /**
    The value `handleInputChange` stores for a keystroke: the phone goes
    through `formatPhone`; the energy cost through `formatCurrency` when it
    holds a digit and verbatim otherwise; name and city verbatim.
   */
  function Normalize(field: Field, value: string): string {
    match field
    case Telefone => FormatPhone(value)
    case CustoEnergia => if Digits(value) != [] then FormatCurrency(value) else value
    case _ => value
  }

  function Update(f: FormData, field: Field, value: string): FormData {
    With(f, field, Normalize(field, value))
  }

  /** Only the edited field changes, and it changes to its normalised value. */
  lemma UpdateOnlyField(f: FormData, field: Field, value: string, g: Field)
    ensures Get(Update(f, field, value), g) == if g == field then Normalize(field, value) else Get(f, g)
  {
  }

  /** Name and city are stored exactly as typed. */
  lemma NameAndCityVerbatim(field: Field, value: string)
    requires field == Nome || field == Cidade
    ensures Normalize(field, value) == value
  {
  }

  /** An energy cost without digits is stored exactly as typed; with digits it is the formatted amount. */
  lemma CostNormalization(value: string)
    ensures !HasDigit(value) ==> Normalize(CustoEnergia, value) == value
    ensures HasDigit(value) ==> Normalize(CustoEnergia, value) == FormatCurrency(value)
  {
    DigitsEmpty(value);
  }

  /** Typing a stored value back in changes nothing, for every field. */
  lemma NormalizeIdempotent(field: Field, value: string)
    ensures Normalize(field, Normalize(field, value)) == Normalize(field, value)
  {
    match field
    case Telefone =>
      PhoneIdempotent(value);
    case CustoEnergia =>
      DigitsEmpty(value);
      if HasDigit(value) {
        CurrencyIdempotent(value);
        CurrencyRoundTrip(value);
        DigitsEmpty(FormatCurrency(value));
      }
    case _ =>
  }

  /** The phone field is filled exactly when a digit was typed into it. */
  lemma PhoneFilledIffDigit(f: FormData, value: string)
    ensures Trim(Update(f, Telefone, value).telefone) != [] <==> HasDigit(value)
  {
    PhoneNonBlank(value);
  }

  // ---------------------------------------------------------------------------
  // generateWhatsAppMessage and the chat link
  // ---------------------------------------------------------------------------

  function WhatsAppLines(f: FormData): seq<string> {
    [NameLabel + f.nome, CityLabel + f.cidade, CostLabel + f.custoEnergia, Greeting]
  }

  /** The four-line message template. */
  function WhatsAppMessage(f: FormData): string {
    Join(WhatsAppLines(f), '\n')
  }

  const WhatsAppPhone := "5567998031541"
  const WhatsAppPrefix := "https://wa.me/" + WhatsAppPhone + "?text="

  /** `https://wa.me/5567998031541?text=` followed by the encoded message. */
  function WhatsAppUrl(f: FormData): (url: string)
    ensures |url| >= |WhatsAppPrefix| && url[..|WhatsAppPrefix|] == WhatsAppPrefix
  {
    var t := EncodeURIComponent(WhatsAppMessage(f));
    assert (WhatsAppPrefix + t)[..|WhatsAppPrefix|] == WhatsAppPrefix;
    WhatsAppPrefix + t
  }

  lemma NoNewlineIn(a: string, b: string)
    requires '\n' !in a && '\n' !in b
    ensures '\n' !in a + b
  {
  }

  const NameLabel := "Nome do cliente: "
  const CityLabel := "Cidade: "
  const CostLabel := "Custo mensal de energia: R$ "
  const Greeting := "Olá, quero saber mais sobre energia solar!"

  /** None of the template's own text contains a line break. */
  lemma NameLabelSingleLine() ensures '\n' !in NameLabel {}
  lemma CityLabelSingleLine() ensures '\n' !in CityLabel {}
  lemma CostLabelSingleLine() ensures '\n' !in CostLabel {}
  lemma GreetingSingleLine() ensures '\n' !in Greeting {}

  predicate SingleLine(s: string) {
    '\n' !in s
  }

  /**
    With single-line fields, the message reads back line by line as the
    filled-in template: the client's name, city and monthly cost, then the
    fixed greeting.
   */
  lemma WhatsAppMessageLines(f: FormData)
    requires SingleLine(f.nome) && SingleLine(f.cidade) && SingleLine(f.custoEnergia)
    ensures Split(WhatsAppMessage(f), "\n") == WhatsAppLines(f)
  {
    NameLabelSingleLine();
    CityLabelSingleLine();
    CostLabelSingleLine();
    GreetingSingleLine();
    NoNewlineIn(NameLabel, f.nome);
    NoNewlineIn(CityLabel, f.cidade);
    NoNewlineIn(CostLabel, f.custoEnergia);
    SplitJoin(WhatsAppLines(f), '\n');
  }

  /**
    The `text` parameter of the link is the encoded message: it holds only
    unescaped characters and `%`, so it cannot end the query early, and
    decoding it gives back the message exactly.
   */
  lemma WhatsAppUrlCarriesMessage(f: FormData)
    ensures var t := WhatsAppUrl(f)[|WhatsAppPrefix|..];
      && (forall i :: 0 <= i < |t| ==> t[i] == '%' || Unescaped(t[i]))
      && DecodeURIComponent(t) == Some(WhatsAppMessage(f))
  {
    var t := EncodeURIComponent(WhatsAppMessage(f));
    assert WhatsAppUrl(f)[|WhatsAppPrefix|..] == t;
    EncodeRoundTrip(WhatsAppMessage(f));
  }

  // ---------------------------------------------------------------------------
  // The email
  // ---------------------------------------------------------------------------

  const EmailPublicKey := "yx5DWBpHMJylXr6Jm"
  const EmailServiceId := "service_a6z2tob"
  const EmailTemplateId := "template_zz0hlad"

  datatype EmailParams = EmailParams(
    toName: string,
    toEmail: string,
    fromName: string,
    fromEmail: string,
    clientName: string,
    clientPhone: string,
    clientCity: string,
    clientEnergyCost: string,
    submitDate: string,
    message: string)

  /** The lines of the email's `message`; the second holds the template's indentation. */
  function EmailLines(f: FormData, date: string): seq<string> {
    [ EmailHeading,
      EmailIndent,
      EmailNameLabel + f.nome,
      EmailPhoneLabel + f.telefone,
      CityLabel + f.cidade,
      CostLabel + f.custoEnergia,
      EmailDateLabel + date ]
  }

  /**
    The template parameters. `submitDate` and `messageDate` are the two
    `new Date().toLocaleString('pt-BR')` readings, taken as given.
   */
  function EmailParamsOf(f: FormData, submitDate: string, messageDate: string): (p: EmailParams)
    ensures p.toName == "SunCare" && p.toEmail == "suncaren8n@gmail.com"
    ensures p.fromEmail == "noreply@suncare.com.br"
    ensures p.fromName == f.nome && p.clientName == f.nome && p.clientPhone == f.telefone
    ensures p.clientCity == f.cidade && p.clientEnergyCost == f.custoEnergia
    ensures p.submitDate == submitDate
  {
    EmailParams(
      "SunCare",
      "suncaren8n@gmail.com",
      f.nome,
      "noreply@suncare.com.br",
      f.nome,
      f.telefone,
      f.cidade,
      f.custoEnergia,
      submitDate,
      Join(EmailLines(f, messageDate), '\n'))
  }

  const EmailHeading := "Novo lead recebido do site:"
  const EmailIndent := "        "
  const EmailNameLabel := "Nome: "
  const EmailPhoneLabel := "Telefone: "
  const EmailDateLabel := "Data: "

  lemma EmailHeadingSingleLine() ensures '\n' !in EmailHeading {}
  lemma EmailIndentSingleLine() ensures '\n' !in EmailIndent {}
  lemma EmailNameLabelSingleLine() ensures '\n' !in EmailNameLabel {}
  lemma EmailPhoneLabelSingleLine() ensures '\n' !in EmailPhoneLabel {}
  lemma EmailDateLabelSingleLine() ensures '\n' !in EmailDateLabel {}

  /** With single-line fields, the email body reads back as its lines, the lead's four fields among them. */
  lemma EmailMessageLines(f: FormData, submitDate: string, messageDate: string)
    requires SingleLine(f.nome) && SingleLine(f.telefone) && SingleLine(f.cidade)
    requires SingleLine(f.custoEnergia) && SingleLine(messageDate)
    ensures Split(EmailParamsOf(f, submitDate, messageDate).message, "\n") == EmailLines(f, messageDate)
  {
    EmailHeadingSingleLine();
    EmailIndentSingleLine();
    EmailNameLabelSingleLine();
    EmailPhoneLabelSingleLine();
    CityLabelSingleLine();
    CostLabelSingleLine();
    EmailDateLabelSingleLine();
    NoNewlineIn(EmailNameLabel, f.nome);
    NoNewlineIn(EmailPhoneLabel, f.telefone);
    NoNewlineIn(CityLabel, f.cidade);
    NoNewlineIn(CostLabel, f.custoEnergia);
    NoNewlineIn(EmailDateLabel, messageDate);
    var lines := EmailLines(f, messageDate);
    assert forall i :: 0 <= i < |lines| ==> '\n' !in lines[i];
    SplitJoin(lines, '\n');
  }

  // ---------------------------------------------------------------------------
  // The component's state and its transitions
  // ---------------------------------------------------------------------------

  datatype Status = Idle | Success | Error

  /** The two deferred callbacks `handleSubmit` schedules. */
  datatype TimerKind = ClearForm | ResetStatus {
    function DelayMs(): nat {
      match this
      case ClearForm => 3000
      case ResetStatus => 5000
    }
  }

  /** What the component does to, or learns from, the outside world. */
  datatype Effect =
    | EmailInit(publicKey: string)
    | EmailSend(serviceId: string, templateId: string, params: EmailParams)
    | EmailOutcome(ok: bool)
    | Tracking(call: Call)
    | OpenWindow(url: string, target: string)

  datatype FormState = FormState(
    formData: FormData,
    isSubmitting: bool,
    submitStatus: Status,
    timers: seq<TimerKind>,
    log: seq<Effect>)

  const Initial := FormState(EmptyForm, false, Idle, [], [])

  /**
    Replays the email protocol of a log: a send only when none is in
    flight, an outcome only for the send in flight. `None` for a log that
    breaks it; otherwise whether a send is still in flight at the end.
   */
  function Replay(inFlight: bool, log: seq<Effect>): Option<bool>
    decreases |log|
  {
    if log == [] then Some(inFlight)
    else
      match log[0]
      case EmailSend(_, _, _) => if inFlight then None else Replay(true, log[1..])
      case EmailOutcome(_) => if inFlight then Replay(false, log[1..]) else None
      case _ => Replay(inFlight, log[1..])
  }

  lemma {:induction false} ReplayConcat(inFlight: bool, a: seq<Effect>, b: seq<Effect>)
    ensures Replay(inFlight, a + b) == match Replay(inFlight, a) case None => None case Some(f) => Replay(f, b)
    decreases |a|
  {
    if a == [] {
      assert a + b == b;
    } else {
      assert (a + b)[0] == a[0];
      assert (a + b)[1..] == a[1..] + b;
      match a[0]
      case EmailSend(_, _, _) =>
        if !inFlight { ReplayConcat(true, a[1..], b); }
      case EmailOutcome(_) =>
        if inFlight { ReplayConcat(false, a[1..], b); }
      case _ =>
        ReplayConcat(inFlight, a[1..], b);
    }
  }

  /**
    The submission invariant: the log obeys the email protocol, and
    `isSubmitting` holds exactly while a send is in flight. So at most one
    send is ever in flight.
   */
  ghost predicate Inv(s: FormState) {
    Replay(false, s.log) == Some(s.isSubmitting)
  }

  lemma InitialInv()
    ensures Inv(Initial)
  {
  }

  /** `handleInputChange(field, value)`. */
  function InputChanged(s: FormState, field: Field, value: string): FormState {
    s.(formData := Update(s.formData, field, value))
  }

  /**
    `handleSubmit` up to its `await`: ignored when the form is incomplete or
    a submission is running; otherwise it marks the submission, clears the
    status, initialises EmailJS and issues one send.
   */
  function SubmitRequested(s: FormState, submitDate: string, messageDate: string): FormState {
    if !IsComplete(s.formData) || s.isSubmitting then s
    else
      s.(isSubmitting := true, submitStatus := Idle,
         log := s.log + [EmailInit(EmailPublicKey),
                         EmailSend(EmailServiceId, EmailTemplateId, EmailParamsOf(s.formData, submitDate, messageDate))])
  }

  /**
    The rest of `handleSubmit` once the send settles: success or error,
    the matching reset scheduled, and `isSubmitting` cleared by `finally`.
   */
  function EmailSettled(s: FormState, ok: bool): FormState
    requires s.isSubmitting
  {
    s.(isSubmitting := false,
       submitStatus := if ok then Success else Error,
       timers := s.timers + [if ok then ClearForm else ResetStatus],
       log := s.log + [EmailOutcome(ok)])
  }

  /** A scheduled callback runs (in whatever order the clock brings them). */
  function TimerFired(s: FormState, i: nat): FormState
    requires i < |s.timers|
  {
    var rest := s.timers[..i] + s.timers[i + 1..];
    match s.timers[i]
    case ClearForm => s.(formData := EmptyForm, submitStatus := Idle, timers := rest)
    case ResetStatus => s.(submitStatus := Idle, timers := rest)
  }

  /** The lead `handleWhatsAppClick` hands to the tracker. */
  function LeadOf(f: FormData): LeadData {
    LeadData(f.nome, f.cidade, f.custoEnergia, Some(f.telefone))
  }

  function TrackingEffects(calls: seq<Call>): (r: seq<Effect>)
    ensures |r| == |calls|
    ensures forall i :: 0 <= i < |r| ==> r[i] == Tracking(calls[i])
  {
    if calls == [] then [] else [Tracking(calls[0])] + TrackingEffects(calls[1..])
  }

  /**
    `handleWhatsAppClick`: the InitiateCheckout tracking runs first; the
    chat opens in a new tab once it has settled, and only then.
   */
  function WhatsAppHandoff(s: FormState, tracker: MetaTracking, env: Env): FormState {
    var d := tracker.Deliver(InitiateCheckoutEvent(LeadOf(s.formData)), env);
    var tracked := s.log + TrackingEffects(d.calls);
    if d.settlement == Resolved then s.(log := tracked + [OpenWindow(WhatsAppUrl(s.formData), "_blank")])
    else s.(log := tracked)
  }

  datatype Action = SubmitAction | WhatsAppAction

  /** `handleButtonClick(action)`. */
  function ButtonClicked(s: FormState, action: Action, tracker: MetaTracking, env: Env): FormState {
    if !IsComplete(s.formData) then s
    else if action == WhatsAppAction then WhatsAppHandoff(s, tracker, env)
    else s
  }

  // ---------------------------------------------------------------------------
  // What the handlers promise
  // ---------------------------------------------------------------------------

  /** An incomplete form, or one already submitting, ignores a submit entirely. */
  lemma SubmitIgnored(s: FormState, submitDate: string, messageDate: string)
    requires !IsComplete(s.formData) || s.isSubmitting
    ensures SubmitRequested(s, submitDate, messageDate) == s
  {
  }

  lemma SubmitRequestedSends(s: FormState, submitDate: string, messageDate: string)
    requires IsComplete(s.formData) && !s.isSubmitting
    ensures SubmitRequested(s, submitDate, messageDate) ==
      FormState(s.formData, true, Idle, s.timers,
        s.log + [EmailInit(EmailPublicKey), EmailSend(EmailServiceId, EmailTemplateId, EmailParamsOf(s.formData, submitDate, messageDate))])
  {
  }

  /** An accepted submit sets the flag, clears the status and issues exactly one send of the current fields. */
  lemma SubmitAccepted(s: FormState, submitDate: string, messageDate: string)
    requires IsComplete(s.formData) && !s.isSubmitting
    ensures var t := SubmitRequested(s, submitDate, messageDate);
      && t.isSubmitting && t.submitStatus == Idle
      && t.formData == s.formData && t.timers == s.timers
      && |t.log| == |s.log| + 2 && t.log[..|s.log|] == s.log
      && t.log[|s.log|] == EmailInit(EmailPublicKey)
      && t.log[|s.log| + 1] == EmailSend(EmailServiceId, EmailTemplateId, EmailParamsOf(s.formData, submitDate, messageDate))
  {
    var t := SubmitRequested(s, submitDate, messageDate);
    assert t.log[..|s.log|] == s.log;
  }

  /** Whichever way the send ends, `isSubmitting` is false afterwards and the outcome shows in the status. */
  lemma SettledOutcome(s: FormState, ok: bool)
    requires s.isSubmitting
    ensures var t := EmailSettled(s, ok);
      && !t.isSubmitting && t.formData == s.formData
      && t.submitStatus == (if ok then Success else Error)
      && t.timers == s.timers + [if ok then ClearForm else ResetStatus]
      && t.log == s.log + [EmailOutcome(ok)]
  {
  }

  /** The 3000 ms callback empties every field and resets the status, whatever was typed meanwhile. */
  lemma ClearFormUnconditional(s: FormState, i: nat)
    requires i < |s.timers| && s.timers[i] == ClearForm
    ensures TimerFired(s, i).formData == EmptyForm && TimerFired(s, i).submitStatus == Idle
    ensures TimerFired(s, i).isSubmitting == s.isSubmitting && TimerFired(s, i).log == s.log
    ensures multiset(TimerFired(s, i).timers) == multiset(s.timers) - multiset{ClearForm}
  {
    assert s.timers == s.timers[..i] + [s.timers[i]] + s.timers[i + 1..];
  }

  /** The 5000 ms callback resets only the status. */
  lemma ResetStatusLeavesFields(s: FormState, i: nat)
    requires i < |s.timers| && s.timers[i] == ResetStatus
    ensures TimerFired(s, i).formData == s.formData && TimerFired(s, i).submitStatus == Idle
    ensures TimerFired(s, i).isSubmitting == s.isSubmitting && TimerFired(s, i).log == s.log
    ensures multiset(TimerFired(s, i).timers) == multiset(s.timers) - multiset{ResetStatus}
  {
    assert s.timers == s.timers[..i] + [s.timers[i]] + s.timers[i + 1..];
  }

  /** An incomplete form ignores both buttons, and the submit button does nothing even on a complete one. */
  lemma ButtonGating(s: FormState, action: Action, tracker: MetaTracking, env: Env)
    requires !IsComplete(s.formData) || action == SubmitAction
    ensures ButtonClicked(s, action, tracker, env) == s
  {
  }

  /**
    The handoff appends the tracker's calls, in order; the chat link is
    added after all of them, exactly when tracking settled, and carries the
    message of the fields at the time of the click.
   */
  lemma HandoffOrder(s: FormState, tracker: MetaTracking, env: Env)
    ensures var d := tracker.Deliver(InitiateCheckoutEvent(LeadOf(s.formData)), env);
      var t := WhatsAppHandoff(s, tracker, env);
      && t.formData == s.formData && t.isSubmitting == s.isSubmitting
      && t.submitStatus == s.submitStatus && t.timers == s.timers
      && |t.log| == |s.log| + |d.calls| + (if d.settlement == Resolved then 1 else 0)
      && t.log[..|s.log|] == s.log
      && (forall i :: 0 <= i < |d.calls| ==> t.log[|s.log| + i] == Tracking(d.calls[i]))
      && (d.settlement == Resolved ==> t.log[|t.log| - 1] == OpenWindow(WhatsAppUrl(s.formData), "_blank"))
      && (forall i :: |s.log| <= i < |t.log| ==> t.log[i].OpenWindow? ==> d.settlement == Resolved && i == |t.log| - 1)
  {
    var d := tracker.Deliver(InitiateCheckoutEvent(LeadOf(s.formData)), env);
    var tr := TrackingEffects(d.calls);
    var t := WhatsAppHandoff(s, tracker, env);
    assert (s.log + tr)[..|s.log|] == s.log;
    if d.settlement == Resolved {
      assert t.log == s.log + tr + [OpenWindow(WhatsAppUrl(s.formData), "_blank")];
      assert t.log[..|s.log|] == s.log;
    }
  }

  /**
    A failing tracker does not keep the chat closed: when the Conversions
    API request throws, the link still opens, right after the one POST.
   */
  lemma HandoffDespiteTrackingFailure(s: FormState, tracker: MetaTracking, env: Env)
    requires env.fetch == FetchRejected
    ensures WhatsAppHandoff(s, tracker, env).log ==
      s.log + [Tracking(tracker.Post(InitiateCheckoutEvent(LeadOf(s.formData)), env)),
               OpenWindow(WhatsAppUrl(s.formData), "_blank")]
  {
  }

  /** While the pixel never loads, the chat never opens. */
  lemma HandoffWaitsForPixel(s: FormState, tracker: MetaTracking, env: Env)
    requires ReachesPixelStep(env.fetch)
    requires forall j :: 0 <= j < |env.fbqPolls| ==> env.fbqPolls[j] == FbqUndefined
    ensures forall i :: 0 <= i < |WhatsAppHandoff(s, tracker, env).log| ==>
      !WhatsAppHandoff(s, tracker, env).log[i].OpenWindow? || i < |s.log|
  {
    var d := tracker.Deliver(InitiateCheckoutEvent(LeadOf(s.formData)), env);
    assert FirstDefined(env.fbqPolls).None?;
    assert d.settlement == StillWaiting;
  }

  // ---------------------------------------------------------------------------
  // The invariant is kept by every handler
  // ---------------------------------------------------------------------------

  /** Effects other than sends and outcomes leave the protocol where it was. */
  lemma {:induction false} ReplayTracking(inFlight: bool, calls: seq<Call>)
    ensures Replay(inFlight, TrackingEffects(calls)) == Some(inFlight)
  {
    if calls != [] {
      ReplayTracking(inFlight, calls[1..]);
    }
  }

  lemma InputChangedInv(s: FormState, field: Field, value: string)
    requires Inv(s)
    ensures Inv(InputChanged(s, field, value))
  {
  }

  /** Initialising EmailJS and sending, with no send in flight, puts one in flight. */
  lemma ReplaySend(log: seq<Effect>, key: string, service: string, template: string, p: EmailParams)
    requires Replay(false, log) == Some(false)
    ensures Replay(false, log + [EmailInit(key), EmailSend(service, template, p)]) == Some(true)
  {
    var send := [EmailSend(service, template, p)];
    var tail := [EmailInit(key)] + send;
    ReplayConcat(false, log, tail);
    assert send[1..] == [];
    assert Replay(false, send) == Some(true);
    assert tail[0] == EmailInit(key) && tail[1..] == send;
    assert Replay(false, tail) == Some(true);
    assert log + [EmailInit(key), EmailSend(service, template, p)] == log + tail;
  }

  lemma SubmitRequestedInv(s: FormState, submitDate: string, messageDate: string)
    requires Inv(s)
    ensures Inv(SubmitRequested(s, submitDate, messageDate))
  {
    if IsComplete(s.formData) && !s.isSubmitting {
      ReplaySend(s.log, EmailPublicKey, EmailServiceId, EmailTemplateId, EmailParamsOf(s.formData, submitDate, messageDate));
    }
  }

  lemma EmailSettledInv(s: FormState, ok: bool)
    requires Inv(s) && s.isSubmitting
    ensures Inv(EmailSettled(s, ok))
  {
    ReplayConcat(false, s.log, [EmailOutcome(ok)]);
  }

  lemma TimerFiredInv(s: FormState, i: nat)
    requires Inv(s) && i < |s.timers|
    ensures Inv(TimerFired(s, i))
  {
  }

  lemma WhatsAppHandoffInv(s: FormState, tracker: MetaTracking, env: Env)
    requires Inv(s)
    ensures Inv(WhatsAppHandoff(s, tracker, env))
  {
    var d := tracker.Deliver(InitiateCheckoutEvent(LeadOf(s.formData)), env);
    var tr := TrackingEffects(d.calls);
    ReplayConcat(false, s.log, tr);
    ReplayTracking(s.isSubmitting, d.calls);
    ReplayConcat(false, s.log + tr, [OpenWindow(WhatsAppUrl(s.formData), "_blank")]);
  }

  lemma ButtonClickedInv(s: FormState, action: Action, tracker: MetaTracking, env: Env)
    requires Inv(s)
    ensures Inv(ButtonClicked(s, action, tracker, env))
  {
    WhatsAppHandoffInv(s, tracker, env);
  }

  // ---------------------------------------------------------------------------
  // The component
  // ---------------------------------------------------------------------------

  class Component {
    var formData: FormData
    var isSubmitting: bool
    var submitStatus: Status
    var timers: seq<TimerKind>
    var log: seq<Effect>

    function State(): FormState
      reads this
    {
      FormState(formData, isSubmitting, submitStatus, timers, log)
    }

    ghost predicate Valid()
      reads this
    {
      Inv(State())
    }

    constructor()
      ensures State() == Initial && Valid()
    {
      formData := EmptyForm;
      isSubmitting := false;
      submitStatus := Idle;
      timers := [];
      log := [];
    }

    method HandleInputChange(field: Field, value: string)
      requires Valid()
      modifies this
      ensures State() == InputChanged(old(State()), field, value) && Valid()
    {
      var v := value;
      if field == Telefone {
        v := FormatPhone(v);
      } else if field == CustoEnergia {
        var numbers := Digits(v);
        if numbers != [] {
          v := FormatCurrency(v);
        }
      }
      formData := With(formData, field, v);
      InputChangedInv(old(State()), field, value);
    }

    /** `handleSubmit` up to the awaited send. */
    method HandleSubmit(submitDate: string, messageDate: string)
      requires Valid()
      modifies this
      ensures State() == SubmitRequested(old(State()), submitDate, messageDate)
      ensures Valid()
    {
      ghost var before := State();
      SubmitRequestedInv(before, submitDate, messageDate);
      if !IsComplete(formData) || isSubmitting {
        SubmitIgnored(before, submitDate, messageDate);
        return;
      }
      SubmitRequestedSends(before, submitDate, messageDate);
      var emailData := EmailParamsOf(formData, submitDate, messageDate);
      var sent := [EmailInit(EmailPublicKey), EmailSend(EmailServiceId, EmailTemplateId, emailData)];
      isSubmitting := true;
      submitStatus := Idle;
      log := log + sent;
      assert formData == before.formData && timers == before.timers && log == before.log + sent;
    }

    /** The awaited send settles: the `try`/`catch` branch, then `finally`. */
    method SendSettled(ok: bool)
      requires Valid() && isSubmitting
      modifies this
      ensures State() == EmailSettled(old(State()), ok) && Valid()
    {
      EmailSettledInv(State(), ok);
      log := log + [EmailOutcome(ok)];
      if ok {
        submitStatus := Success;
        timers := timers + [ClearForm];
      } else {
        submitStatus := Error;
        timers := timers + [ResetStatus];
      }
      isSubmitting := false;
    }

    /** One of the scheduled callbacks runs. */
    method FireTimer(i: nat)
      requires Valid() && i < |timers|
      modifies this
      ensures State() == TimerFired(old(State()), i) && Valid()
    {
      TimerFiredInv(State(), i);
      var kind := timers[i];
      timers := timers[..i] + timers[i + 1..];
      if kind == ClearForm {
        formData := EmptyForm;
      }
      submitStatus := Idle;
    }

    /** `handleWhatsAppClick`. */
    method HandleWhatsAppClick(tracker: MetaTracking, env: Env)
      requires Valid()
      modifies this
      ensures State() == WhatsAppHandoff(old(State()), tracker, env) && Valid()
    {
      WhatsAppHandoffInv(State(), tracker, env);
      var d := TrackWhatsAppClick(tracker, LeadOf(formData), env);
      log := log + TrackingEffects(d.calls);
      if d.settlement == Resolved {
        var url := WhatsAppPrefix + EncodeURIComponent(WhatsAppMessage(formData));
        log := log + [OpenWindow(url, "_blank")];
      }
    }

    /** `handleButtonClick(action)`. */
    method HandleButtonClick(action: Action, tracker: MetaTracking, env: Env)
      requires Valid()
      modifies this
      ensures State() == ButtonClicked(old(State()), action, tracker, env) && Valid()
    {
      if !IsComplete(formData) {
        return;
      }
      if action == WhatsAppAction {
        HandleWhatsAppClick(tracker, env);
      }
    }
  }
}
