# SunCare contact form and Meta event tracking — a Dafny model

This project models the lead-capture core of the SunCare solar-energy landing page. It covers two files.

`src/components/ContactForm.tsx` holds the quote form:
- Four text fields, with the phone and monthly-cost fields normalised as the visitor types.
- A completion check that trims each field. The model states it as "no field is blank", and a lemma gives the `trim()` form.
- A submit path that sends an EmailJS message. The form is cleared 3 s after success; the status resets 5 s after an error.
- A WhatsApp button. It first reports an InitiateCheckout event to Meta, then opens `https://wa.me/<number>?text=<encoded message>`.

`src/lib/meta-tracking.ts` holds the `MetaTracking` tracker:
- `trackEvent` builds a Conversions API payload from the clock, the cookies and the browser, and POSTs it.
- It polls for the browser pixel `fbq`. Then, when `fbq` is a function, it repeats InitiateCheckout and Lead events on the pixel under the same event id; other events get no pixel call.
- Every failure is swallowed.

The model has six modules in five files:

- `text.dfy`:
  - `Wrappers`: `Option`.
  - `Text`: the JavaScript string built-ins the sources rely on. These are stripping non-digits (`replace(/\D/g, '')`), decimal rendering and `parseInt`, `trim`, `split`, and line joining.
- `uri_component.dfy` (`UriComponent`): `encodeURIComponent`, with a percent-and-UTF-8 decoder as its partner.
- `formatters.dfy` (`Formatters`): `formatPhone` and `formatCurrency`.
- `meta_tracking.dfy` (`MetaTracking`): the tracker.
  - The browser and the network are an `Env` value. It holds the two clock readings, the rendering of `Math.random()`, the user agent, `document.cookie`, the page URL, how `fetch` ends, and the value of `window.fbq` at each 100 ms poll.
  - The class `MetaTracking` holds the three constants set by the constructor.
  - `Deliver` is the specification of one `trackEvent` call. It gives the calls made and whether the promise settles.
  - The method `TrackEvent` runs the polling loop and is proved equal to `Deliver`.
- `contact_form.dfy` (`ContactForm`): the component.
  - The state is a `FormState` value: the fields, `isSubmitting`, `submitStatus`, the pending timers, and a log of outward effects (EmailJS calls, tracking calls, `window.open`).
  - Each handler is a pure transition function on that state.
  - The class `Component` holds the same state in mutable fields. Each method is proved to move the state exactly as its transition function does.
  - It also keeps an invariant: the e-mail sends and their settlements alternate, and `isSubmitting` holds exactly while a send is in flight.

`handleSubmit` awaits the EmailJS send, so it is split in two:
- `HandleSubmit` runs the part up to the await.
- `SendSettled(ok)` runs the continuation once the send resolves (`ok`) or rejects.

A pending `setTimeout` callback is an entry of `timers`, and `FireTimer(i)` runs it. Timers may fire in any order, which includes the real 3000 ms / 5000 ms order.

Where the model goes its own way:
- `formatCurrency` on input with no digit yields `"NaN"`, as `parseInt('')` does. `handleInputChange` never reaches that case: it leaves such input as typed.
- The form counts as complete as soon as the fields are. The source's `isFormComplete` is set by an effect one render later.
- The tracker posts `user_data` exactly as the source builds it (`UserDataAsWritten`). The map that evidently was meant, where a caller's user agent replaces the browser's, is defined beside it (`UserData`); the two agree on every event these files send, which carries no user data.

## Model

| member | source | states |
|---|---|---|
| Text.Digits | src/components/ContactForm.tsx:31 | `replace(/\D/g, '')` keeps the characters `0` to `9` in their order and drops every other; its contract is stated by the `Digits…` lemmas |
| Text.DigitsAreDigits | src/components/ContactForm.tsx:31 | stripping non-digits leaves only decimal digits |
| Text.DigitsEmpty | src/components/ContactForm.tsx:63-64 | the digit string is empty exactly when the text has no digit, the test `if (numbers)` makes |
| Text.DigitsConcat | src/components/ContactForm.tsx:31 | stripping non-digits distributes over concatenation |
| Text.DigitsIdempotent | src/components/ContactForm.tsx:31 | stripping twice is stripping once |
| Text.Decimal | src/lib/meta-tracking.ts:40 | `Date.now().toString()` renders a natural as a digit string with no leading zero |
| Text.DecimalRoundTrip | src/components/ContactForm.tsx:42 | `parseInt` of the decimal rendering of n gives back n |
| Text.Trim | src/components/ContactForm.tsx:52-55 | `trim()` is empty exactly when the text is all JavaScript white space |
| Text.TrimSlice | src/components/ContactForm.tsx:52-55 | `trim()` returns a contiguous slice of the text, what it cuts off on either side is all white space, and the slice neither starts nor ends with white space |
| Text.IndexFrom | src/lib/meta-tracking.ts:63 | finds the first occurrence of the separator at or after `from`, or reports that none exists |
| Text.Split | src/lib/meta-tracking.ts:63 | `split` yields at least one piece, cutting at the non-overlapping occurrences of the separator from left to right |
| Text.SplitFirstPiece | src/lib/meta-tracking.ts:65 | the first piece of `split(';')` is the text before the first `;` |
| Text.SplitJoin | src/components/ContactForm.tsx:76-79 | splitting lines joined by a character none of them contains gives the lines back |
| UriComponent.EncodeURIComponent | src/components/ContactForm.tsx:81 | the encoding holds only unreserved characters and `%`, so it is a single safe query value |
| UriComponent.EncodeUnescapedIdentity | src/components/ContactForm.tsx:81 | text of unreserved characters passes through unchanged |
| UriComponent.EncodeRoundTrip | src/components/ContactForm.tsx:81 | percent-decoding and then UTF-8 decoding the encoding gives back the original text |
| Formatters.FormatPhone | src/components/ContactForm.tsx:30-37 | `formatPhone`: the digits, then the area-code pattern with a four-digit middle for at most ten digits and a five-digit middle above, then the trailing dash dropped; its contract is stated by the `Phone…` lemmas |
| Formatters.FormatCurrency | src/components/ContactForm.tsx:40-47 | `formatCurrency`: `NaN` without digits, else the pt-BR rendering of the digits' value in centavos; its contract is stated by the `Currency…` lemmas |
| Formatters.PhoneShape | src/components/ContactForm.tsx:30-37 | with d the digits, fewer than six stay bare digits, since the pattern needs six, and exactly six give `(AA) BBBB` with the dash dropped. Seven to ten give `(AA) BBBB-C…`, and eleven or more give `(AA) BBBBB-CCCC` followed by the remaining digits |
| Formatters.PhoneKeepsDigits | src/components/ContactForm.tsx:30-37 | the digits of the formatted phone are exactly the input's digits |
| Formatters.PhoneIdempotent | src/components/ContactForm.tsx:30-37 | formatting an already formatted phone changes nothing |
| Formatters.PhoneNonBlank | src/components/ContactForm.tsx:30-37 | the formatted phone is non-blank exactly when the input has a digit |
| Formatters.Group | src/components/ContactForm.tsx:43-46 | pt-BR grouping keeps the digits and puts a `.` before every third digit from the right, and nowhere else, so never in front |
| Formatters.CurrencyLayout | src/components/ContactForm.tsx:40-47 | for input with digits of value n, the result is the grouped integer part n div 100, a `,`, and the two digits of n mod 100 |
| Formatters.CurrencyRoundTrip | src/components/ContactForm.tsx:40-47 | reading the digits of the formatted amount back gives the input's value, so no centavo is lost |
| Formatters.CurrencyIdempotent | src/components/ContactForm.tsx:40-47 | formatting an already formatted amount changes nothing ("NaN" included) |
| Formatters.CurrencyExampleThousands | src/components/ContactForm.tsx:40-47 | the keystrokes `150000` show as `1.500,00` |
| Formatters.CurrencyExampleCentavos | src/components/ContactForm.tsx:40-47 | the keystroke `5` shows as `0,05` |
| Formatters.CurrencyExampleFormatted | src/components/ContactForm.tsx:40-47 | the text `R$ 1.234,56` normalises to `1.234,56` |
| Formatters.MobileOfDigits | src/components/ContactForm.tsx:34-35 | eleven digits typed as they are format as the mobile shape `(AA) BBBBB-CCCC` |
| Formatters.LandlineFormatted | src/components/ContactForm.tsx:32-33 | an already formatted landline `(AA) BBBB-C…`, with one to four final digits, is left as it is |
| MetaTracking.GetFbp | src/lib/meta-tracking.ts:73-75 | the `_fbp` cookie, read by the cookie lookup whose contract `CookieValue` and `CookieFound` state |
| MetaTracking.GetFbc | src/lib/meta-tracking.ts:77-79 | the `_fbc` cookie, read by the same lookup |
| MetaTracking.CookieValue | src/lib/meta-tracking.ts:61-68 | a found cookie value is non-empty and holds no `;`; an empty value is null |
| MetaTracking.CookieFound | src/lib/meta-tracking.ts:61-68 | when `; name=` occurs once in `"; " + cookie`, the result is the text after it up to the next `;`, or null when that text is empty |
| MetaTracking.CookieAbsent | src/lib/meta-tracking.ts:63-64 | a cookie whose `; name=` never occurs is null |
| MetaTracking.CookieRepeated | src/lib/meta-tracking.ts:63-64 | a cookie whose `; name=` occurs twice is null, because `split` then yields more than two parts |
| MetaTracking.GenerateEventId | src/lib/meta-tracking.ts:39-41 | the id is the decimal clock reading followed by the characters of the random rendering from offset 2, exactly min(9, max(0, length - 2)) of them, as `substr(2, 9)` takes |
| MetaTracking.CookieJson | src/lib/meta-tracking.ts:99-100 | a missing cookie is sent as null and a present one as its string |
| MetaTracking.UserData | src/lib/meta-tracking.ts:96-102 | corrected `user_data`: exactly the four Conversions API keys, with `client_ip_address` empty |
| MetaTracking.UserDataFieldByField | src/lib/meta-tracking.ts:96-102 | corrected `user_data`: each key takes the caller's value when given, else the browser's user agent or the cookie |
| MetaTracking.UserDataAsWritten | src/lib/meta-tracking.ts:96-102 | `user_data` as the source builds it: the four default keys, then the caller's fields spread over them under their own names; `UserAgentOverrideIgnored` and `UserDataAgree` state what it yields |
| MetaTracking.UserAgentOverrideIgnored | src/lib/meta-tracking.ts:96-102 | as written, a caller's `clientUserAgent` adds a separate key and `client_user_agent` keeps the browser's agent |
| MetaTracking.UserDataAgree | src/lib/meta-tracking.ts:96-102 | when the caller gives no user agent, the map as written equals the corrected map; every event these files send has no user data |
| MetaTracking.BuildPayload | src/lib/meta-tracking.ts:84-107 | one event carrying the name, the id, the second `eventTime` with `eventTime*1000 <= now < eventTime*1000+1000`, and the URL. It also carries `website`, the `user_data` map exactly as the source builds it, and the custom data (or `{}`), plus the access token |
| MetaTracking.FirstDefined | src/lib/meta-tracking.ts:44-59 | the poll at which `fbq` is first defined, with every earlier poll undefined, or none such |
| MetaTracking.PixelCalls | src/lib/meta-tracking.ts:124-141 | at most one pixel call. There is one exactly when `fbq` is a function and the event is InitiateCheckout or Lead, and it carries the event's name and the same event id. Its parameters are exactly `content_name` and `content_category` for InitiateCheckout and exactly `content_name` for Lead, each the event's content field or `""` when absent |
| MetaTracking.MetaTracking.constructor | src/lib/meta-tracking.ts:33-37 | sets the token, the pixel id and the Conversions API URL built from the pixel id |
| MetaTracking.MetaTracking.Deliver | src/lib/meta-tracking.ts:82-146 | the POST comes first and carries the payload of `BuildPayload`, with `user_data` as the source builds it. A pixel call, the one `PixelCalls` gives for the first defined `fbq`, follows exactly when the response or its body was read, the first defined `fbq` is a function, and the event is InitiateCheckout or Lead. Both share one event id. The promise stays pending exactly when the network never answers or `fbq` never appears |
| MetaTracking.MetaTracking.WaitForFbq | src/lib/meta-tracking.ts:44-59 | the polling loop stops at the first poll where `fbq` is defined |
| MetaTracking.MetaTracking.TrackEvent | src/lib/meta-tracking.ts:82-146 | the calls made and the settlement are those of `Deliver` |
| MetaTracking.InitiateCheckoutEvent | src/lib/meta-tracking.ts:148-163 | an InitiateCheckout event with no user data and fixed content name and category. Its one content item `solar-quote` has quantity 1 and is titled with the lead's city |
| MetaTracking.InitiateCheckoutOnlyCity | src/lib/meta-tracking.ts:148-163 | of the lead only the city reaches the event |
| MetaTracking.InitiateCheckoutPixel | src/lib/meta-tracking.ts:129-133 | the pixel call for a checkout carries `InitiateCheckout`, the fixed content name and category, and the server event's id |
| MetaTracking.MetaTracking.TrackInitiateCheckout | src/lib/meta-tracking.ts:148-163 | delivers exactly the checkout event of the lead |
| MetaTracking.TrackWhatsAppClick | src/lib/meta-tracking.ts:172-174 | delivers exactly the checkout event of the lead through the singleton tracker |
| ContactForm.IsComplete | src/components/ContactForm.tsx:52-55 | every one of the four fields is non-blank; `CompleteIffTrimmed` ties it to `trim() !== ''` |
| ContactForm.Normalize | src/components/ContactForm.tsx:59-66 | the value an input event stores: phone formatted, cost formatted only when it has a digit, name and city as typed; stated by `CostNormalization`, `NameAndCityVerbatim`, `NormalizeIdempotent` |
| ContactForm.WhatsAppMessage | src/components/ContactForm.tsx:75-79 | the message text, the four lines joined by line breaks; stated by `WhatsAppMessageLines` |
| ContactForm.InputChanged | src/components/ContactForm.tsx:59-73 | the input transition; stated by `UpdateOnlyField` and `InputChangedInv` |
| ContactForm.SubmitRequested | src/components/ContactForm.tsx:106-142 | the submit transition up to the await; stated by `SubmitIgnored`, `SubmitAccepted` and `SubmitRequestedInv` |
| ContactForm.EmailSettled | src/components/ContactForm.tsx:144-176 | the continuation after the send settles; stated by `SettledOutcome` and `EmailSettledInv` |
| ContactForm.TimerFired | src/components/ContactForm.tsx:147-173 | a pending timer's callback; stated by `ClearFormUnconditional`, `ResetStatusLeavesFields` and `TimerFiredInv` |
| ContactForm.WhatsAppHandoff | src/components/ContactForm.tsx:84-104 | the WhatsApp click; stated by `HandoffOrder`, `HandoffDespiteTrackingFailure`, `HandoffWaitsForPixel` and `WhatsAppHandoffInv` |
| ContactForm.ButtonClicked | src/components/ContactForm.tsx:179-185 | the main button click; stated by `ButtonGating` and `ButtonClickedInv` |
| ContactForm.With | src/components/ContactForm.tsx:69-72 | the spread update sets the one field and leaves the others as they were |
| ContactForm.CompleteIffTrimmed | src/components/ContactForm.tsx:52-55 | the form is complete exactly when `trim()` of every field is non-empty |
| ContactForm.UpdateOnlyField | src/components/ContactForm.tsx:59-73 | an input event changes only its own field, to the normalised value |
| ContactForm.NameAndCityVerbatim | src/components/ContactForm.tsx:59-73 | name and city are stored as typed |
| ContactForm.CostNormalization | src/components/ContactForm.tsx:62-66 | the cost is formatted as currency when it has a digit and otherwise kept as typed |
| ContactForm.NormalizeIdempotent | src/components/ContactForm.tsx:59-73 | normalising a stored value again changes nothing, for every field |
| ContactForm.PhoneFilledIffDigit | src/components/ContactForm.tsx:60-61 | after typing into the phone field it counts as filled exactly when the typed text had a digit |
| ContactForm.WhatsAppUrl | src/components/ContactForm.tsx:100-102 | the link starts `https://wa.me/5567998031541?text=` |
| ContactForm.WhatsAppMessageLines | src/components/ContactForm.tsx:75-79 | for single-line fields the message consists of exactly the four lines: name, city, `R$` cost and greeting |
| ContactForm.WhatsAppUrlCarriesMessage | src/components/ContactForm.tsx:81-102 | the text parameter holds only safe characters and decodes to exactly the message |
| ContactForm.EmailParamsOf | src/components/ContactForm.tsx:118-135 | the template parameters: fixed recipients and sender address, with each client field taken from the form and the submit date as given |
| ContactForm.EmailMessageLines | src/components/ContactForm.tsx:128-134 | the e-mail body consists of exactly its seven lines: heading, indented blank line, name, phone, city, cost and date |
| ContactForm.TrackingEffects | src/components/ContactForm.tsx:87-92 | each tracking call is logged once, in order |
| ContactForm.ReplayConcat | src/components/ContactForm.tsx:106-177 | replaying a log in two pieces is replaying it whole |
| ContactForm.InitialInv | src/components/ContactForm.tsx:18-27 | the initial state keeps the submission invariant |
| ContactForm.SubmitIgnored | src/components/ContactForm.tsx:108 | submitting an incomplete form, or while a send is in flight, changes nothing |
| ContactForm.SubmitAccepted | src/components/ContactForm.tsx:108-142 | an accepted submit sets `isSubmitting`, resets the status, keeps the fields and timers, and logs init with the public key then one send of the form's parameters |
| ContactForm.SettledOutcome | src/components/ContactForm.tsx:144-176 | the settled send clears `isSubmitting` and appends exactly its outcome to the log. Success sets `success` and schedules the clearing timer, failure sets `error` and schedules the status reset, and the fields stay |
| ContactForm.ClearFormUnconditional | src/components/ContactForm.tsx:147-155 | the clearing timer empties every field and sets the status to idle whenever it fires, and only that timer is consumed |
| ContactForm.ResetStatusLeavesFields | src/components/ContactForm.tsx:171-173 | the reset timer sets the status to idle and touches nothing else |
| ContactForm.ButtonGating | src/components/ContactForm.tsx:179-185 | a click on an incomplete form, or the submit action, changes nothing |
| ContactForm.HandoffOrder | src/components/ContactForm.tsx:84-104 | the tracking calls are logged before the window is opened. The window opens on the encoded link in `_blank` exactly when tracking settles, and the form state is unchanged |
| ContactForm.HandoffDespiteTrackingFailure | src/components/ContactForm.tsx:85-103 | when the Conversions API request fails, only the POST is logged and the window still opens |
| ContactForm.HandoffWaitsForPixel | src/components/ContactForm.tsx:87-92 | while `fbq` stays undefined the window is never opened |
| ContactForm.ReplayTracking | src/components/ContactForm.tsx:87-92 | tracking effects do not disturb the submission invariant |
| ContactForm.InputChangedInv | src/components/ContactForm.tsx:59-73 | typing keeps the submission invariant |
| ContactForm.SubmitRequestedInv | src/components/ContactForm.tsx:106-142 | submitting keeps the submission invariant |
| ContactForm.EmailSettledInv | src/components/ContactForm.tsx:144-176 | the settled send keeps the submission invariant |
| ContactForm.TimerFiredInv | src/components/ContactForm.tsx:147-173 | a firing timer keeps the submission invariant |
| ContactForm.WhatsAppHandoffInv | src/components/ContactForm.tsx:84-104 | the WhatsApp handoff keeps the submission invariant |
| ContactForm.ButtonClickedInv | src/components/ContactForm.tsx:179-185 | a button click keeps the submission invariant |
| ContactForm.Component.constructor | src/components/ContactForm.tsx:18-27 | the component starts empty, idle, not submitting, with no timers and no effects |
| ContactForm.Component.HandleInputChange | src/components/ContactForm.tsx:59-73 | the new state is that of the input transition, and the invariant is kept |
| ContactForm.Component.HandleSubmit | src/components/ContactForm.tsx:106-142 | the new state is that of the submit transition, and the invariant is kept |
| ContactForm.Component.SendSettled | src/components/ContactForm.tsx:144-176 | the new state is that of the settled send, and the invariant is kept |
| ContactForm.Component.FireTimer | src/components/ContactForm.tsx:147-173 | the new state is that of the fired timer, and the invariant is kept |
| ContactForm.Component.HandleWhatsAppClick | src/components/ContactForm.tsx:84-104 | the new state is that of the WhatsApp handoff, and the invariant is kept |
| ContactForm.Component.HandleButtonClick | src/components/ContactForm.tsx:179-185 | the new state is that of the button transition, and the invariant is kept |

## Left out

- The React render cycle: state setters take effect at once, and `isFormComplete` is computed from the fields rather than one render late (ContactForm.tsx:50-57). A stale closure reading an older render's `formData` is not modelled.
- Interleaving inside `handleWhatsAppClick`: the tracking await and the window opening form one step. Other events during the await are not modelled.
- `handleButtonClick` does not await `handleWhatsAppClick`. The model runs the handoff within the click.
- `handleSubmit` is split at its one await (`HandleSubmit`, `SendSettled`). An `emailjs.init` that throws synchronously is not modelled, and neither is the `preventDefault` call.
- Timer delays: a pending timer may fire at any time and in any order. The 3000 ms and 5000 ms delays are recorded (`TimerKind.DelayMs`) but not enforced.
- Console logging in both files.
- Formatters.FormatCurrency: works on exact integers. The source divides `parseInt(numbers)` by 100 as a double, so from about 2^46 reais (about 7.0×10^15 centavos) the rounded centavos can differ from the typed ones; `7036874417766401` centavos shows `,02` in the browser and `,01` here. That rounding, and `toLocaleString` for amounts of `Infinity` size, are not modelled.
- The locale data of `toLocaleString('pt-BR')` for dates: `submit_date` and the message's `Data:` line are parameters.
- `Date.now()` and `Math.random().toString(36)` are parameters of `Env`. A negative clock cannot occur.
- `encodeURIComponent` on lone UTF-16 surrogates, which throws: a Dafny `char` is a Unicode scalar value, so such text cannot be written.
- `JSON.stringify`, the HTTP method and headers of the POST: the payload is kept as a structured value.
- The Conversions API access token: the model holds a placeholder constant instead of the credential.
- `CustomData.value` is carried as a `real` and never produced. Number formatting in JSON is not modelled.
- An `fbq` function that throws when called, or that changes between the final poll and the read at meta-tracking.ts:126.
- A `userData` object whose fields are present but `undefined`: an absent `Option` stands for both.
- MetaTracking.MetaTracking.WaitForFbq: observes a finite sequence of polls. A pixel that never loads within them leaves the promise `StillWaiting`, which stands for the source's unending poll.
- The singleton instance (meta-tracking.ts:169) is passed to `TrackWhatsAppClick` as an argument.
- The rendered markup, icons and styling of ContactForm.tsx (lines 187-368).

## Findings

| source | as written | input that shows it | evidently intended | confidence | as-written member | corrected member |
|---|---|---|---|---|---|---|
| src/lib/meta-tracking.ts:96-102 | the spread of `eventData.userData` copies its camel-case key `clientUserAgent` next to `client_user_agent`, so the caller's user agent never replaces the browser's | `userData: { clientUserAgent: "X" }` while `navigator.userAgent` is not `"X"` | each given field overrides its Conversions API key, as `fbp` and `fbc` already do | medium, not executed | MetaTracking.UserAgentOverrideIgnored | MetaTracking.UserDataFieldByField |
