# Portfolio website: contact form, verification relay and typing animation

A Dafny model of the three pieces of the portfolio site that make decisions:

- **The contact page's form controller** (`app/contact/page.tsx`). It covers the five form
  fields, the synchronous validator and the `isFormValid` flag. It also covers the submit
  handler, which validates the form, checks the reCAPTCHA token, sets `loading`, asks the
  same-origin relay to verify the token, sends the mail through EmailJS, and ends in
  `success` (form reset) or `error` (form kept, except when the widget reset throws after
  the mail was sent: then the form, errors and token are already cleared).
- **The verification relay** `POST /api/verify-recaptcha` (`app/api/verify-recaptcha/route.ts`).
  It forwards the token to the reCAPTCHA verifier and maps the outcome to 200, 400 or 500,
  each with a fixed payload.
- **The hero text's typing animation** (`app/components/TypingAnimation.tsx`). It types
  three fixed titles one character at a time, pauses, and deletes them, forever.

Modules, one per concern:

| file | module | models |
|---|---|---|
| `wrappers.dfy` | `Wrappers` | `Option`, standing for `string \| null` and optional members |
| `text.dfy` | `Text` | JavaScript whitespace (`\s`, which is also what `trim` strips) and `String.prototype.trim` |
| `email.dfy` | `EmailPattern` | the email pattern `^[^\s@]+@[^\s@]+\.[^\s@]+$`: its language, and the shape check the validator evaluates |
| `contact.dfy` | `ContactPage` | the form state, the validator, `isFormValid`, `handleSubmit` as a function (`Submit`) and the component as a class (`Contact`) whose methods update its fields |
| `relay.dfy` | `VerifyRelay` | the relay's `POST` handler as a function of the request body and the verifier's answer |
| `typing.dfy` | `Typing` | one run of the animation effect as a function (`Next`) and the component as a class (`TypingAnimation`) whose `Step` updates its four fields |

External calls become inputs. The relay request from the page is a `VerifyOutcome`: the
fetch threw, or it answered with an HTTP status. `emailjs.send` is a `SendOutcome`: it
resolved or it threw. `window.grecaptcha.reset()`, run inside the same `try` after a
successful send, is a `ResetOutcome`: it returned (or there was no widget), or it threw. In the relay, the parsed request body is a `RequestBody` and the
verifier's answer is an `Upstream`: the fetch failed, the reply was unreadable, or it
answered with a `success` value. JSON values are modelled only as far as JavaScript
truthiness tells them apart (`JsonValue`, `Truthy`). `Submit` returns the outbound calls
it made, in order, so "no mail without verification" can be stated about them. It also
returns the state shown while those calls are in flight, which is where a call that never
settles leaves the page.

Three behaviours of the handler are easy to misread:

- A missing token does not set `status` to `error`. It only sets `errorMessage`, and the
  `errors` object is also reset to `{}` by the handler's first state update
  (app/contact/page.tsx:44, 73-76).
- A failed verification and a failed send end in the same message,
  "Failed to send message. Please try again later." (app/contact/page.tsx:91-92, 124-127).
- `isFormValid` tests `recaptchaValue !== null`, while the handler tests `!recaptchaValue`.
  With an empty token the two disagree (`EmptyTokenDivergence`). `isFormValid` is computed
  but never used by the page's markup.

## Model

| member | source | states |
|---|---|---|
| `ContactPage.FormData.With` | app/contact/page.tsx:33 | `{ ...prev, [name]: value }`: the named field takes the new value and every other field keeps its value |
| `ContactPage.Contact.constructor` | app/contact/page.tsx:19-29 | the initial state: empty fields, no errors, `idle`, empty message, null token |
| `ContactPage.Contact.HandleChange` | app/contact/page.tsx:31-38 | only the named field changes; an error shown under it becomes `''` with its key kept; other errors, status, message and token are unchanged |
| `ContactPage.Contact.HandleRecaptcha` | app/contact/page.tsx:342 | the widget's callback replaces the token and changes nothing else |
| `ContactPage.Validate` | app/contact/page.tsx:47-71 | the validation result is empty exactly when all five checks pass, which is the condition under which the handler goes on |
| `ContactPage.ValidateReports` | app/contact/page.tsx:47-65 | a key is present exactly for a failing field: blank first name, last name or message; empty `field` (not trimmed); a trimmed email outside the pattern. Each key carries its exact message, and the email message depends on whether the email is blank |
| `ContactPage.IsFormValid` | app/contact/page.tsx:132-139 | when `isFormValid` holds, a token is present, a field is selected and the trimmed email is in the pattern's language |
| `ContactPage.IsFormValidIffNoErrors` | app/contact/page.tsx:132-139 | `isFormValid` holds exactly when validation yields no errors and the token is not null |
| `ContactPage.EmptyTokenDivergence` | app/contact/page.tsx:73-76 | with a valid form and an empty token, `isFormValid` holds yet the handler rejects locally with the reCAPTCHA message and makes no call |
| `ContactPage.Template` | app/contact/page.tsx:96-102 | `templateParams`: the address and the message are the form's email and message with only blank text removed at either end, and no whitespace left at either end; the sender name is the trimmed first and last names joined by one space; `field` is the form's own, and the subject is `[field] Contact Form Submission` |
| `ContactPage.TemplateOfValidForm` | app/contact/page.tsx:96-102 | the mail of a validated form carries an address matching the pattern, a non-empty sender name with no whitespace at either end, a non-blank trimmed message and the subject `[field] Contact Form Submission` |
| `ContactPage.Submit` | app/contact/page.tsx:40-129 | no call iff local rejection, which keeps status, form and token. Validation errors replace `errors`; a missing token sets the reCAPTCHA message. Once the local checks pass, the page shows `loading` with no errors and an empty message for as long as either call is in flight. The first call is the verify request with the token. The mail is sent only after an ok response, at most once, with `templateParams`. Success iff the send resolved and the widget reset did not throw, and it resets everything. A reset that throws after the mail was sent leaves the form, errors and token cleared but ends in `error` with the failure message. Any other failure is `error` with that message, keeping form and token |
| `ContactPage.Contact.HandleSubmit` | app/contact/page.tsx:40-129 | the handler run step by step on the component's fields ends in `Submit`'s state, makes `Submit`'s calls, and shows `Submit`'s in-flight state while they are pending |
| `ContactPage.MailOnlyAfterVerifierAccepted` | app/contact/page.tsx:83-104 | with the relay's real reply as the page's verify outcome, mail goes out exactly when the form validates, the token is non-empty and the verifier's verdict is truthy |
| `VerifyRelay.Truthy` | app/api/verify-recaptcha/route.ts:7-24 | JavaScript truthiness as `!token` and `!data.success` test it: the falsy values are exactly a missing member, `null`, `false`, `0` and `""` |
| `VerifyRelay.Post` | app/api/verify-recaptcha/route.ts:3-39 | status is 200, 400 or 500; `success` holds iff 200, and a message is present iff not 200. The status is 200 iff the token and the verdict are truthy, and 500 iff something threw. At most one verifier call is made, with the request's token, and only when that token is truthy |
| `VerifyRelay.MissingTokenRefused` | app/api/verify-recaptcha/route.ts:7-12 | a falsy token gives 400 `Token is required` and no verifier call, whatever the verifier would say |
| `VerifyRelay.FalsyVerdictRefused` | app/api/verify-recaptcha/route.ts:24-29 | a falsy verdict gives 400 `Invalid reCAPTCHA token` |
| `VerifyRelay.TruthyVerdictAccepted` | app/api/verify-recaptcha/route.ts:31 | a truthy verdict gives 200 `{ success: true }` |
| `VerifyRelay.FaultsBecomeServerError` | app/api/verify-recaptcha/route.ts:32-38 | an exception while reading the request, calling the verifier or reading its reply gives 500 `Error verifying reCAPTCHA` |
| `VerifyRelay.ReplyDependsOnlyOnVerdict` | app/api/verify-recaptcha/route.ts:3-39 | the reply depends only on the token's truthiness and, for a truthy token, on the verifier's answer; nothing carries over between requests |
| `Text.Trim` | app/contact/page.tsx:49-63 | `trim()` as the validator and the mail use it: the result has no whitespace at either end |
| `Text.TrimStartDropsBlankPrefix` | app/contact/page.tsx:49 | the start of `trim` removes exactly the longest whitespace prefix |
| `Text.TrimEndDropsBlankSuffix` | app/contact/page.tsx:49 | the end of `trim` removes exactly the longest whitespace suffix |
| `Text.TrimKeepsMiddle` | app/contact/page.tsx:97-101 | what `trim` returns is the middle of its input: the input is that result with blank text on either side |
| `Text.TrimEmptyIffBlank` | app/contact/page.tsx:49-65 | a trimmed value is empty exactly when the value is all whitespace; otherwise it neither starts nor ends with whitespace |
| `EmailPattern.LooksLikeEmail` | app/contact/page.tsx:57 | the shape check the validator evaluates accepts only strings of at least five characters containing an `@` and a `.` |
| `EmailPattern.LooksLikeEmailIffMatches` | app/contact/page.tsx:57 | the validator's shape check accepts exactly the pattern's language: no whitespace, exactly one `@` not in first place, and a `.` after it with a character on each side |
| `Typing.TypingAnimation.constructor` | app/components/TypingAnimation.tsx:6-9 | the initial state: empty text, first title, neither deleting nor paused, and the invariant holds |
| `Typing.Next` | app/components/TypingAnimation.tsx:17-43 | one run of the effect keeps the title index within the list of titles; its other properties are the lemma rows below |
| `Typing.TypingAnimation.Step` | app/components/TypingAnimation.tsx:17-43 | one run of the effect on the component's fields keeps the invariant and yields `Next` of the old state |
| `Typing.InitialConsistent` | app/components/TypingAnimation.tsx:6-15 | the initial state satisfies the invariant |
| `Typing.NextKeepsConsistent` | app/components/TypingAnimation.tsx:17-43 | each step keeps the invariant: the index names a title, the text is a prefix of it, the animation is never paused and deleting at once, and a pause shows the whole title |
| `Typing.NextMovesOneCharacter` | app/components/TypingAnimation.tsx:27-40 | the text grows by one exactly when typing with room left, shrinks by one exactly when deleting a non-empty text, and otherwise keeps its length |
| `Typing.TitleChangesOnlyWhenDeleted` | app/components/TypingAnimation.tsx:31-34 | the title index changes exactly when deleting an empty text, and then to the next title, `(i + 1) % 3`, with typing resumed |
| `Typing.PauseEntryAndExit` | app/components/TypingAnimation.tsx:21-42 | a pause starts only from typing a complete title, and a pause always ends by starting to delete the same text |
| `Typing.RunKeepsConsistent` | app/components/TypingAnimation.tsx:17-46 | every state reached from a consistent one, after any number of steps, is consistent |
| `Typing.TypesOut` | app/components/TypingAnimation.tsx:36-39 | typing from a prefix of length k reaches the whole title in as many steps as the title has characters left |
| `Typing.DeletesOut` | app/components/TypingAnimation.tsx:27-30 | deleting from a prefix of length k empties the text in k steps |
| `Typing.OneTitle` | app/components/TypingAnimation.tsx:17-43 | one title takes twice its length plus 3 steps: type, pause, start deleting, delete, move to the next title |
| `Typing.OnePeriod` | app/components/TypingAnimation.tsx:11-15 | after the three titles, 113 steps, the animation is back in its initial state |
| `Typing.CyclesThroughAllTitles` | app/components/TypingAnimation.tsx:11-46 | every multiple of 113 steps from the initial state returns to it |

## Left out

- Markup, styling, `framer-motion` animations and icons: presentation only.
- Timer delays (`setTimeout` in the animation): each run of the effect is one untimed step, and the cleanup `clearTimeout` has no counterpart.
- React's state batching and the `await` interleaving in `handleSubmit`: each handler is one transition from the state it starts in. The state shown while the calls are pending is returned as a whole, and events the user causes during those awaits are not interleaved.
- `window.grecaptcha.reset()`: the model records only whether it threw. Its effect on the external widget is not modelled, beyond the stored token being cleared.
- `console.error` logging in both catch blocks: output only.
- The HTTP exchange, form-URL encoding, JSON parsing and `process.env` configuration: the request body, the verifier's answer and the EmailJS outcome are inputs. A JSON `null` body is counted as an unreadable one, because destructuring it or reading a member of it throws.
- Floating-point parsing of JSON numbers: `Number` holds the value as already parsed, as an exact `real`, so `0` and `-0` (both `0.0`) are the only falsy numbers. JSON has no NaN, so none can arrive.
- JavaScript strings are UTF-16 code-unit sequences, while Dafny strings here are sequences of Unicode scalar values. Every whitespace character involved is a single code unit, so `trim` and `\s` agree, but lengths can differ for text outside the Basic Multilingual Plane.
- `app/page.tsx` (intro flag in `sessionStorage`, video preload), `IntroAnimation.tsx`, `Navigation.tsx`, `ContactForm.tsx` (an older, unvalidated EmailJS form not used by the contact page), `layout.tsx`, `not-found.tsx`, the teaching and technology pages and `next.config.js` are not part of this model: they are static content, configuration or timer-driven presentation.
