# Portfolio contact gate and mail relay, in Dafny

A Dafny model of the parts of a personal portfolio site that make decisions:

- the contact form's anti-spam gate (`Contact.tsx`): a one-minute cooldown
  kept in component state, a quota of three messages per hour kept in browser
  storage, required fields, a hidden honeypot field, and the counter update
  after a confirmed send;
- the serverless mail relay (`sendEmail.ts`): method check, body parse,
  honeypot, required fields, email composition and the mapping of provider
  errors and exceptions to HTTP status codes;
- the small pure decisions beside them: which section is active for a scroll
  position, Alt+key shortcuts, the time-of-day greeting, the header's
  highlight rule and menu effects, and the hotspot tooltip state machine.

Everything is pure functions over immutable datatypes with integer time in
milliseconds. The relay outcome the form sees, the email provider's answer,
the current time and the hour are inputs.

Modules, one per file: `ContactGate`, `ContactRuns` (sequences of typing,
attempts and reloads), `MailRelay`, `ContactDelivery` (the two sides
together), `ActiveSection`, `KeyboardShortcuts`, `Greeting`, `Header`,
`ProjectHotspot`, plus `Wrappers` (Option) and `TextLines` (join and split of
lines).

Facts about the code that shape the model:

- The form's gate checks the honeypot last, after cooldown, quota and
  fields (src/components/Contact.tsx:64-95).
- `canSubmit` does not roll an expired hourly window
  (src/components/Contact.tsx:42-47). Through the button, which it disables
  (src/components/Contact.tsx:329), a full count therefore locks the form
  even after the hour has passed, until a remount rolls the window
  (`ContactRuns.CanSubmitIgnoresExpiredWindow`, `ContactRuns.FullCountLocksForm`).
- `lastSubmitTime` is component state, not storage
  (src/components/Contact.tsx:20). Every remount forgets the cooldown
  (`ContactRuns.ReloadForgetsCooldown`). A remount is a browser reload or a
  route change between the pages that mount the form: the home page
  (`/`, `/home`) and `/contact` (src/App.tsx:27-33, 57, 137).
- The window roll is written to storage before the field check, and it
  persists when that check, the honeypot or the relay stops the attempt
  (src/components/Contact.tsx:74-76).
- The request body has no honeypot field (src/components/Contact.tsx:102-112).
- The relay answers an unparseable body with 500 and the parser's message,
  from its catch block (netlify/functions/sendEmail.ts:15, 54-60).

Stored values are assumed to be well-formed non-negative integers; a missing
key reads as 0, as `parseInt(getItem(k) || '0', 10)` gives.

## Model

| member | source | states |
|---|---|---|
| ContactGate.Mount | src/components/Contact.tsx:26-36 | a missing/zero or expired reset time restarts the window at `now` with count 0; otherwise storage is unchanged; afterwards the window is never expired at `now` |
| ContactGate.CanSubmit | src/components/Contact.tsx:42-47 | true iff at least 60000 ms have passed since the last send and the stored count is below 3; it reads storage and writes nothing |
| ContactGate.RemainingCooldown | src/components/Contact.tsx:49-54 | the least natural number of seconds covering the rest of the cooldown (ceiling division clamped at 0); 0 iff the cooldown has elapsed; at most 60 when `now` is not before the last send |
| ContactGate.CeilDiv | src/components/Contact.tsx:52 | `Math.ceil(a / b)` for positive `b`: the least integer `q` with `q * b >= a`, for negative numerators too |
| ContactGate.Submit | src/components/Contact.tsx:56-134 | checks run cooldown, window roll or quota, fields, honeypot, relay; cooldown and quota rejections change nothing; the relay is called iff all checks pass, with the four visible fields and meta; only a confirmed reply adds exactly 1 to the count, records `now` and clears the form; a window roll persists past a field, honeypot or relay failure; otherwise a failure keeps count, time and form |
| ContactGate.FailureMessage | src/components/Contact.tsx:115-130 | a failed reply shows the body's `error`, else "Gagal mengirim pesan."; a transport error shows its message, else the catch-all text; never empty |
| ContactGate.RequestOf | src/components/Contact.tsx:102-112 | the posted body carries exactly name, email, subject, message and meta from the form |
| ContactGate.Change | src/components/Contact.tsx:38-40 | typing sets one named field and leaves storage, the last send time and the other fields alone |
| ContactGate.Reload | src/components/Contact.tsx:8-36 | any remount (a browser reload or a route change that mounts the form again) clears the form and `lastSubmitTime` and runs the mount effect over the surviving storage |
| ContactRuns.RunKeepsQuota | src/components/Contact.tsx:72-81 | starting with a count of at most 3, no run of typing, attempts and reloads ever stores a count above 3 |
| ContactRuns.SendsRespectCooldown | src/components/Contact.tsx:61-69 | in a run without remounts, every confirmed send is at least 60000 ms after the previous one |
| ContactRuns.ReloadForgetsCooldown | src/components/Contact.tsx:20 | two confirmed sends one second apart are possible across a reload |
| ContactRuns.CanSubmitPredictsAdmission | src/components/Contact.tsx:42-81 | when `canSubmit` holds neither cooldown nor quota rejects; when it fails in an unexpired window one of them does |
| ContactRuns.FullCountLocksForm | src/components/Contact.tsx:42-47 | with the stored count at 3, a run without remounts whose attempts all pass the disabled button sends nothing and leaves storage unchanged, however much time passes |
| ContactRuns.CanSubmitIgnoresExpiredWindow | src/components/Contact.tsx:42-47 | a state where `canSubmit` is false yet a submit rolls the window and sends |
| MailRelay.Handle | netlify/functions/sendEmail.ts:7-61 | non-POST gives 405 "Method Not Allowed" whatever the body; an unparseable body gives 500 with the parse message; a truthy honeypot gives 200 `{ok:true}` before fields are checked; a missing field gives 400 "Missing required fields"; the provider is invoked iff POST, empty honeypot and all four fields; provider error gives 500 with its message or "Resend error"; a throw gives 500 with its message or "Failed to send"; status is always 200, 400, 405 or 500 and `ok:true` appears iff 200 |
| MailRelay.Fields | netlify/functions/sendEmail.ts:15-17 | a missing body or a `null` value yields no fields, so no honeypot and no name |
| MailRelay.Compose | netlify/functions/sendEmail.ts:41-47 | the email goes from the fixed sender to the fixed recipient, replies to the submitted email, and has subject "Portfolio Contact: " + subject |
| MailRelay.EmailText | netlify/functions/sendEmail.ts:28-39 | the text is the lines "Nama: name", "Email: email", "Subjek: subject", "", "Pesan:", message, "", "---" then the meta and receipt lines, joined by newlines |
| MailRelay.EmailHeaderLines | netlify/functions/sendEmail.ts:28-39 | for any message, meta block and receipt time, if name, email and subject have no newline, the first four lines of the text are "Nama: name", "Email: email", "Subjek: subject" and "" |
| MailRelay.EmailTextLines | netlify/functions/sendEmail.ts:28-39 | the special case where no field has a newline: splitting the text at newlines gives back all ten lines |
| MailRelay.Caught | netlify/functions/sendEmail.ts:54-60 | any exception gives status 500 with JSON headers, `ok:false`, and the exception's message or "Failed to send" when it is empty |
| MailRelay.ProviderIrrelevantUntilDispatch | netlify/functions/sendEmail.ts:8-26 | on every path that stops before the send, the provider's answer does not affect the response |
| ContactDelivery.Deliver | src/components/Contact.tsx:99-127 | a request from the gate always passes the relay's checks and reaches the provider with the form's email as reply-to; the attempt counts as sent iff the provider delivered; a provider error surfaces its message or "Resend error" |
| ContactDelivery.WireBody | src/components/Contact.tsx:102-112 | the posted JSON, as the relay destructures it (netlify/functions/sendEmail.ts:15-17), has the form's four fields present and no honeypot |
| ContactDelivery.UnroutedPostFails | src/components/Contact.tsx:99-120 | a POST answered by a plain-text 404 reads as a failed send with "Gagal mengirim pesan." |
| ContactDelivery.ClientView | src/components/Contact.tsx:115-117 | the client's `res.ok` is a 2xx status; a plain-text body has neither `ok:true` nor an error |
| ContactDelivery.BotSeesSuccess | netlify/functions/sendEmail.ts:19-22 | a bot posting a filled honeypot straight to the relay gets a reply the form would read as confirmed, and nothing is sent |
| ActiveSection.HandleScroll | src/hooks/useActiveSection.ts:7-21 | the probe is `scrollY + 100`; sections are examined home, about, experience, projects, education, contact; the first present section with `top <= probe < top + height` wins even if a later one also matches; with no match the previous section is kept |
| KeyboardShortcuts.HandleKeyPress | src/hooks/useKeyboardShortcuts.ts:8-45 | nothing happens unless Alt is held with Ctrl, Shift and Meta released; the lower-cased key selects the action; `preventDefault` is called iff an action is taken |
| KeyboardShortcuts.KeyAction | src/hooks/useKeyboardShortcuts.ts:11-42 | exactly the keys h, a, e, p, d, c, t, b have an action; each navigation letter goes to its route in the shortcut table; t scrolls to the top and b to the bottom |
| KeyboardShortcuts.ShortcutTable | src/hooks/useKeyboardShortcuts.ts:11-42 | h, a, e, p, d, c (either case) go to `/`, `/about`, `/experience`, `/projects`, `/education`, `/contact`; t and b scroll to top and bottom |
| KeyboardShortcuts.OtherKeysIgnored | src/hooks/useKeyboardShortcuts.ts:10-43 | any other key takes no action and leaves the default alone |
| KeyboardShortcuts.CaseInsensitive | src/hooks/useKeyboardShortcuts.ts:10 | a key and its lower-cased form do the same thing |
| KeyboardShortcuts.ToLower | src/hooks/useKeyboardShortcuts.ts:10 | lower-casing keeps the length and maps A-Z to a-z character by character |
| Greeting.PeriodOf | src/hooks/useGreeting.ts:10-18 | pagi iff 5 <= hour < 12, siang iff 12 <= hour < 16, sore iff 16 <= hour < 19, malam otherwise |
| Greeting.PeriodMatchesTable | src/hooks/useGreeting.ts:10-18 | every clock hour 0..23 gets the period an independent 24-entry table lists |
| Greeting.GreetingDistinguishesPeriods | src/hooks/useGreeting.ts:10-18 | two hours get the same greeting iff they fall in the same period |
| Header.Highlighted | src/components/Header.tsx:65-66 | on `/`, an item is highlighted iff its id is the active section; elsewhere, exactly the item whose route is the path is highlighted |
| Header.Render | src/components/Header.tsx:60-114 | desktop text, underline and mobile entry all use the one highlight predicate; mobile entries exist iff the menu is open |
| Header.RenderHighlightsAtMostOne | src/components/Header.tsx:60-114 | in every rendering at most one item's desktop view is highlighted |
| Header.InitialSectionHighlightsNothing | src/hooks/useActiveSection.ts:4 | on `/`, the empty initial active section (before the first `handleScroll`, which runs at mount) highlights no item |
| Header.AtMostOneHighlighted | src/components/Header.tsx:14-21 | because ids and routes are pairwise distinct, at most one item is highlighted for any path and active section |
| Header.HomeOnlyBySection | src/components/Header.tsx:65-66 | Home is highlighted only on `/` with active section "home", never by its route |
| Header.UnknownPathHighlightsNothing | src/components/Header.tsx:65-66 | a path that is not `/` and no item's route highlights nothing |
| Header.TrackedSectionHighlightsOne | src/components/Header.tsx:65-66 | on `/`, each section the scroll tracker can report highlights exactly its own item |
| Header.ShortcutRoutesAreItemRoutes | src/components/Header.tsx:14-21 | the shortcut routes are the navigation table's routes, in order |
| Header.ScrollToSection | src/components/Header.tsx:23-39 | the menu always closes; it navigates to `/` and defers the scroll iff the current path is not `/` |
| Header.LogoClick | src/components/Header.tsx:48-51 | the logo navigates to `/` and closes the menu |
| Header.LogoAndSectionAgree | src/components/Header.tsx:23-51 | the logo and every navigation item leave the header in the same state, so the next rendering has no mobile entries |
| Header.ToggleMenu | src/components/Header.tsx:89 | the menu button flips the menu flag and keeps the path |
| Header.ToggleTwice | src/components/Header.tsx:89 | two presses restore the header |
| ProjectHotspot.Click | src/components/ProjectHotspot.tsx:60 | clicking the open hotspot closes it; clicking any other makes it the open one |
| ProjectHotspot.RepeatedClicksAlternate | src/components/ProjectHotspot.tsx:21-60 | from nothing open, n clicks on one hotspot leave it open iff n is odd |
| ProjectHotspot.Close | src/components/ProjectHotspot.tsx:93 | the close button leaves nothing open |
| ProjectHotspot.CloseHidesEveryTooltip | src/components/ProjectHotspot.tsx:60-93 | after the close button no hotspot's tooltip is shown; on the open hotspot a click has the same effect as the close button |
| ProjectHotspot.OneTooltipId | src/components/ProjectHotspot.tsx:70 | all visible tooltips belong to a single id |
| ProjectHotspot.TooltipAnchor | src/components/ProjectHotspot.tsx:78-79 | for x <= 50 the tooltip's left edge is at x + 5 with right auto; for x > 50 its right edge is at 100 - x + 5 with left auto; either way a 5% gap from the point |
| ProjectHotspot.CategoriesDistinguished | src/components/ProjectHotspot.tsx:23-43 | the three categories have distinct labels and distinct colours |

## Left out

- Rendering, styling, animations, lazy routing and the content-only components: presentation without decisions.
- `fetch`, `res.json()` and the email provider SDK: the relay outcome and the provider's answer are inputs. The provider client and API-key setup at module load are not modelled.
- `Date.now()`, `new Date()`, `getHours()` and date formatting: time and hour are parameters; the pretty-printed meta block and the receipt timestamp in the email text are opaque strings.
- `parseInt` on corrupted storage, which can yield NaN: stored values are assumed well-formed non-negative integers.
- The `isSubmitting` flag and overlapping submissions: attempts are sequential and atomic. The 100 ms `setTimeout` in `scrollToSection` is modelled only as a "deferred" flag.
- ContactRuns.RunKeepsQuota, ContactRuns.SendsRespectCooldown: these hold for attempts in any state, including ones the disabled button (src/components/Contact.tsx:329) would not let through, and ones with an empty field, which the browser's validation of the `required` inputs (src/components/Contact.tsx:273, 287, 303, 317) cancels before `handleSubmit` runs; only `ButtonRespected` runs are restricted to attempts while `canSubmit` holds. Through the page, `FieldsRejected` (and a window roll that persists past the field check) arises only from a direct call of `handleSubmit`; the email input's `type="email"` format check (src/components/Contact.tsx:282) is not modelled.
- DOM measurement (`getElementById`, `offsetTop`, `offsetHeight`) and the IntersectionObserver hook: section boxes are an input map.
- ContactGate.Submit: the cooldown message's seconds are computed with the same `now` as the attempt, while the source calls `Date.now()` again inside `getRemainingCooldown`; the Indonesian message texts for cooldown, quota and fields are represented by verdict tags.
- ContactDelivery.Deliver: assumes the form's POST to `/.netlify/functions/send-contact` (src/components/Contact.tsx:99) is routed to the handler in netlify/functions/sendEmail.ts, whose header comment names it send-contact.ts. The deployment's routing and file naming are not part of this model. If the POST reaches no handler, the form sees a 404 page (`ContactDelivery.UnroutedPostFails`).
- MailRelay.Handle: body fields are strings or absent; JSON values of other types (numbers, booleans, objects) and their truthiness are not modelled.
- ContactGate.FailureMessage: a non-string `error` in the relay's reply is not modelled.
- KeyboardShortcuts.ToLower: lower-cases ASCII letters only, not the full Unicode case mapping of `toLowerCase`.
- ProjectHotspot.TooltipAnchor: hotspot coordinates are whole percentages; fractional positions are not modelled.
- The category badge colours in the tooltip header are a third styling map with no decision beyond the category and are not modelled.
