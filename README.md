# Contact-form controller and navigation header of the youth-education marketing site

The site is a set of static pages around a shared header. Two parts of it hold logic, and this
project models both.

- **The contact page's submission controller** (`src/pages/Contact.tsx`). The page keeps the
  flags `isSubmitted`, `isSending` and `submitError` and the detached `interest` selection. The
  submit handler shapes six template fields from the form, and refuses to send when the relay's
  public key is missing or empty. Otherwise it makes one call to the email relay and records success
  or failure. The page replaces the form with a confirmation once it is submitted, and disables the
  button while sending.
  - `ContactPayload` (`contact_payload.dfy`) holds the payload shaping as functions.
  - `ContactForm` (`contact_form.dfy`) specifies the handler as the sequence of state updates and
    relay calls it makes (`SubmitEffects`), replayed over the page state (`Replay`). Page-level
    events (`Event`, `Enabled`, `Step`) model what the rendered page lets the user do. The class
    `ContactPage` runs the same steps on its own fields. The class `EmailRelay` logs every request
    it receives.
- **The navigation header** (`src/components/Navigation.tsx`). It has an exact-match active test
  and highlights parent entries over the fixed two-level link table. It also keeps two flags: the
  mobile menu (toggled by its button, closed by every mobile link) and the scrolled flag (set from
  the scroll offset). `Navigation` (`navigation.dfy`) has the table, the predicates and lemmas over
  it, the flags as `NavState` with an event model, and the class `NavigationBar` with the handlers.

`wrappers.dfy` defines `Option`, the stand-in for a value that may be `null`.

The relay's answer is a parameter of the submit (`Delivered` or `Rejected`), so every property
holds for both answers. The environment's key is an `Option<string>`. The browser's form data is a
map from control name to value, where a missing name reads as `null`.

Behaviour of the code that the model keeps exactly:
- The selector's values are `taster`, `7-11`, `12-16`, `school` and `other`
  (`src/pages/Contact.tsx:233-245`).
- The old error is cleared first, before the key is checked (`src/pages/Contact.tsx:57`).
- The missing-key message names the environment variable `VITE_EMAILJS_PUBLIC_KEY`
  (`src/pages/Contact.tsx:72`).
- The key test is JavaScript truthiness, so an empty key counts as missing
  (`src/pages/Contact.tsx:71`).
- Nothing inside the handler guards against a second submit. The guards are the disabled button
  and the form being replaced by the confirmation (`src/pages/Contact.tsx:148, 269`). The model
  puts them in `Enabled`.

## Model

| member | source | states |
|---|---|---|
| `ContactPayload.ToTemplateVariables` | src/pages/Contact.tsx:61-68 | The payload reaches the relay under exactly the six template variable names `first_name`, `last_name`, `email`, `phone`, `interest`, `message`. |
| `ContactPayload.TemplateVariablesRoundTrip` | src/pages/Contact.tsx:61-68 | Reading the six variables back gives the payload: no field is lost or renamed on the way to the relay. |
| `ContactPayload.PayloadCopiesTextControls` | src/pages/Contact.tsx:62-67 | Each of `first_name`, `last_name`, `email`, `phone`, `message` is the form's value for its control when the control is present (an empty value is kept, as with `??`), and `""` when it is absent. |
| `ContactPayload.InterestPrecedence` | src/pages/Contact.tsx:66 | A non-empty selection is the payload's interest; an empty selection falls through to the form's `interest` value if present, else `""`. |
| `ContactPayload.SelectedOptionWins` | src/pages/Contact.tsx:225-245 | Choosing any of the five options puts exactly that option into the payload, whatever the form holds. |
| `ContactForm.SubmitEffects` | src/pages/Contact.tsx:55-91 | Every submit starts by clearing the previous error, before anything else. |
| `ContactForm.SubmitCallsRelayAtMostOnce` | src/pages/Contact.tsx:70-83 | With a configured key the relay is called exactly once, with `service_eldl2of`, `template_vpsj3xc`, the shaped payload under its six template variable names, and the key. Without one it is never called. Nothing is retried. |
| `ContactForm.SubmitWithoutKey` | src/pages/Contact.tsx:70-74 | Without a key (unset or empty), the only change is the configuration error. No relay call is made, `isSending` is never set, and `isSubmitted` is unchanged. |
| `ContactForm.ConfiguredSubmitState` | src/pages/Contact.tsx:76-90 | With a key, the state after the submit for each relay answer. `isSending` is false at the end either way. |
| `ContactForm.SubmitDelivered` | src/pages/Contact.tsx:84-90 | When the relay resolves, the form is submitted, not sending, and shows no error. |
| `ContactForm.SubmitRejected` | src/pages/Contact.tsx:85-90 | When the relay throws, the generic "Something went wrong" error is shown and the form is not sending. `isSubmitted` keeps its value. |
| `ContactForm.SendingDuringRelayCall` | src/pages/Contact.tsx:76-83 | Whenever the relay call is in flight, `isSending` is true, so the button is disabled. |
| `ContactForm.InitialConsistent` | src/pages/Contact.tsx:27-30 | The page mounts not sending, not submitted, with no error and an empty selection. |
| `ContactForm.StepPreservesConsistent` | src/pages/Contact.tsx:55-91 | Every event the page allows keeps the state consistent: not sending between events, no error once submitted, and the selection empty or one of the five options. |
| `ContactForm.SubmittedIsFinal` | src/pages/Contact.tsx:148-166 | Once submitted, the page allows neither a selection nor a submit, because the confirmation replaces the form. |
| `ContactForm.FailedSubmitAllowsRetry` | src/pages/Contact.tsx:70-90 | A submit that did not deliver (missing key or relay failure) leaves a state in which the next submit is allowed. |
| `ContactForm.DeliveredExample` | src/pages/Contact.tsx:61-84 | The worked example: Ann Lee's form, with a key and a resolving relay, ends submitted and makes one call carrying her six fields under the template variable names `first_name` … `message`. |
| `ContactForm.AllowedRunConsistent` | src/pages/Contact.tsx:27-30 | Any run of allowed events keeps the page consistent. |
| `ContactForm.AtMostOneDelivery` | src/pages/Contact.tsx:267-269 | Over any allowed run, at most one relay call is delivered; from a submitted state, none is. |
| `ContactForm.EmailRelay.Send` | src/pages/Contact.tsx:78-83 | One call logs exactly the request it was given, and resolves exactly when the provider delivers. |
| `ContactForm.ContactPage.constructor` | src/pages/Contact.tsx:27-30 | The component's state starts as `Initial`. |
| `ContactForm.ContactPage.SelectInterest` | src/pages/Contact.tsx:225-228 | The selector's change handler stores the chosen value and changes nothing else. |
| `ContactForm.ContactPage.HandleSubmit` | src/pages/Contact.tsx:55-91 | The handler's field updates end in the state `Step` specifies. The relay's log grows by exactly the calls `SubmitEffects` lists. |
| `Navigation.SomeChildActiveIff` | src/components/Navigation.tsx:81 | The `some` scan over a dropdown's children is true exactly when some child's path equals the pathname. |
| `Navigation.HighlightedIffOwnsPath` | src/components/Navigation.tsx:25 | An entry is highlighted exactly when the pathname is its own path or one of its children's, by exact equality and never by prefix. This holds for dropdowns (line 81) and plain links (line 115). |
| `Navigation.EntryPathsOfTable` | src/components/Navigation.tsx:27-53 | The paths each of the six top-level entries stands for. |
| `Navigation.EntryPathsDisjoint` | src/components/Navigation.tsx:27-53 | No path belongs to two different top-level entries. |
| `Navigation.HighlightIsUnique` | src/components/Navigation.tsx:75-123 | For any pathname at most one top-level entry is highlighted. One is highlighted exactly when the pathname is one of the twelve listed paths, so an unlisted sub-path such as `/programs/x` highlights nothing. |
| `Navigation.ContactHighlightsNothing` | src/components/Navigation.tsx:52 | On `/contact`, whose entry is commented out, no entry is highlighted. |
| `Navigation.MenuButtonTwiceRestores` | src/components/Navigation.tsx:139 | Two presses of the menu button restore the header's state. |
| `Navigation.MenuButtonParity` | src/components/Navigation.tsx:139 | After `n` presses the menu is flipped exactly when `n` is odd. |
| `Navigation.MobileLinkCloses` | src/components/Navigation.tsx:160-198 | After any history, a click on a child link, a top-level link or the call-to-action link of the mobile menu leaves the menu closed. |
| `Navigation.ScrolledFollowsLastScroll` | src/components/Navigation.tsx:17-23 | After any events, `isScrolled` holds exactly when the last scroll offset exceeds 10. With no scroll event it keeps its value. |
| `Navigation.ScrollAndMenuIndependent` | src/components/Navigation.tsx:18-19 | Scroll events never change the menu, and menu events never change the scrolled flag. |
| `Navigation.NavigationBar.constructor` | src/components/Navigation.tsx:13-14 | Both `isScrolled` and `isMobileMenuOpen` start false. |
| `Navigation.NavigationBar.HandleScroll` | src/components/Navigation.tsx:18-20 | The scroll handler sets `isScrolled` to `scrollY > 10` and leaves the menu alone. |
| `Navigation.NavigationBar.ToggleMobileMenu` | src/components/Navigation.tsx:139 | The menu button negates `isMobileMenuOpen`. |
| `Navigation.NavigationBar.MobileLinkClicked` | src/components/Navigation.tsx:169 | A mobile link's click handler closes the menu whatever its prior value, and leaves `isScrolled` alone. |

## Left out

- The email relay library and the network (`src/pages/Contact.tsx:5, 78`): a foreign asynchronous call. It is modelled only by the requests it receives and an answer given as a parameter.
- The environment lookup, the error log line, the browser's form-data object and the default-action suppression (`src/pages/Contact.tsx:56-59, 70, 86`). They are modelled as an optional key and a map from control name to value. The log line has no effect on state.
- The browser's `required` and `type="email"` checks, which stop the submit event before the handler runs. The model shapes the payload for every field map, including ones the browser would block.
- Asynchronous interleaving: a submit is one atomic step with a nondeterministic answer. The model assumes the relay always answers; the source sets no timeout, so a call that never settles would leave the button disabled for good. React's batching of state updates is not modelled. Each update is applied in the order the handler makes it.
- The scroll listener's registration and removal, and the dropdown and select widgets (`src/components/Navigation.tsx:17-23`). These are event plumbing and library UI.
- The scroll offset is a real number, so floating-point rounding is not modelled. It is only compared with 10.
- The mobile menu's own link styling (`src/components/Navigation.tsx:165, 179`) is the plain exact-match `IsActive` and adds nothing beyond it.
- The routing table, the scroll-to-top effect, the footer, the page content files, the animation setup and the styling configuration: static markup or browser side effects, with no logic to model.
