# Contact-form controller of the portfolio site

This project models the contact form of a single-page portfolio site: the
controller that holds the four field values (`firstName`, `email`, `phone`,
`message`), a per-field error map, an `isLoading` flag and a `submitSuccess`
flag, and changes them through three handlers: `validateForm`, `handleSubmit`
and `handleChange`, plus the timer that hides the success notice.

The repository holds this controller twice, with identical logic: the older
single-file `src/app/components/Contact.tsx` and the refactored
`src/app/components/contact/Contact.tsx`. One model serves both. The lines
correspond as follows (refactored file first):

- schema `contactFormSchema`: 8-16 and 20-28
- initial state cells: 31-39 and 39-47
- `validateForm`: 60-76 and 132-148
- `handleSubmit`: 78-109 and 150-189
- `handleChange`: 111-120 and 191-200

Files:

- `wrappers.dfy`: module `Wrappers`, the `Option` type (an optional property
  that may be `undefined`).
- `contact_schema.dfy`: module `ContactSchema`, the zod schema as pure
  functions: the field names, the form value, each field's rule (`Passes`),
  the issue list `parse` reports (`Issues`) and the error map the rules call
  for (`ErrorsFor`). zod's e-mail check is a parameter (`EmailCheck`) on which
  nothing is assumed, except where a lemma says it rejects the empty string.
- `contact_controller.dfy`: module `ContactController`, the class
  `ContactForm` with the four state cells as fields and one method per
  handler. `Valid()` is kept by `Submit`, `Change` and `ClearSuccess` (`validateForm`
  is only ever called on the current values, inside `Submit`): the phone is always a present
  string, and every error shown is the message of a rule that the field's
  current value still fails. The `forEach` that builds `newErrors` is the loop
  method `CollectErrors`.
- `contact_scenarios.dfy`: module `ContactScenarios`, runs from the first
  render proved from the handlers' contracts alone.

The outcome of the outbound send is a parameter of `Submit`. The method returns
the payload handed to the send, or `None` when the send is not called. The
5-second timer is the explicit event `ClearSuccess`.

Two points of the phone rule deserve care:

- The schema marks the phone `.optional()`
  (src/app/components/contact/Contact.tsx:14), which lets only an absent
  phone skip the rule. In the code the phone is a present string in every
  state: `""` at first, after a reset and after any edit. So the
  `.optional()` never applies. A blank phone fails the 11-character rule, so a
  form with the phone left blank cannot be sent (`SubmitWithBlankPhone`). The
  same values with the phone absent pass, but only at the schema level
  (`OmittedPhonePasses`).
- The phone rule's own message asks for eleven "dígitos" (`"Telefone deve ter pelo menos
  11 dígitos"`, src/app/components/contact/Contact.tsx:13), but `.min(11)`
  counts characters of any kind: eleven letters pass (`PhoneRule`).

## Model

| member | source | states |
|---|---|---|
| `ContactSchema.LengthRulesAreMonotone` | src/app/components/contact/Contact.tsx:9-15 | the name, phone and message rules are `.min` bounds only: if a value passes, any value at least as long passes too (an absent phone stays exempt), whatever the e-mail check |
| `ContactSchema.IssuesFrom` | src/app/components/contact/Contact.tsx:8-16 | checking the fields from schema position `n` on reports exactly the failing ones among them, each once with its rule's message, in declaration order |
| `ContactSchema.Issues` | src/app/components/contact/Contact.tsx:8-16 | parse reports one issue per failing field and no other, each with that rule's message, in schema order (so at most one per field) |
| `ContactSchema.AllFailingFrom` | src/app/components/contact/Contact.tsx:8-16 | when every field from schema position `n` on fails, parse reports `4 - n` issues, one per such field |
| `ContactSchema.ParseSucceedsIff` | src/app/components/contact/Contact.tsx:60-64 | parse succeeds exactly when all four rules pass, and exactly when the expected error map is empty |
| `ContactSchema.NameRule` | src/app/components/contact/Contact.tsx:9 | a name error appears iff the name has fewer than 2 characters, with the name message; whitespace counts (two spaces pass) |
| `ContactSchema.MessageRule` | src/app/components/Contact.tsx:27 | a message error appears iff the message has fewer than 10 characters, with the message text of that rule |
| `ContactSchema.PhoneRule` | src/app/components/contact/Contact.tsx:11-14 | an absent phone passes; a present one fails iff shorter than 11 characters; `""` fails; any 11 characters pass, digits or not |
| `ContactSchema.PassesIsLocal` | src/app/components/Contact.tsx:20-28 | each field's verdict depends on that field's value alone |
| `ContactController.Updated` | src/app/components/contact/Contact.tsx:115 | the spread update sets field `name` to the new value and leaves every other field's value as it was |
| `ContactController.EmptyFormFailsEveryRule` | src/app/components/contact/Contact.tsx:32-37 | if the e-mail check rejects `""`, the initial value fails all four rules: four issues, an error on every field |
| `ContactController.CollectErrors` | src/app/components/contact/Contact.tsx:67-71 | the `forEach` builds a map whose keys are exactly the issues' paths, each holding the message of the last issue on that path |
| `ContactController.IssuePathIffFailing` | src/app/components/Contact.tsx:139-144 | a field is the path of some reported issue exactly when the expected error map holds it, so the collected keys are the failing fields and no other |
| `ContactController.ContactForm.constructor` | src/app/components/contact/Contact.tsx:31-39 | first render: all fields `""` (phone present), no errors, not loading, no success notice |
| `ContactController.ContactForm.ValidateForm` | src/app/components/contact/Contact.tsx:60-76 | returns true iff all rules pass; the error map is replaced wholesale by the expected map (exactly the failing fields, each with its rule's message, no leftover key), empty on success |
| `ContactController.ContactForm.Submit` | src/app/components/contact/Contact.tsx:78-109 | the send is called iff validation passes, with the current values; errors become the expected map; a successful send clears the fields and sets `submitSuccess`; an invalid form or a failed send leaves the values and `submitSuccess` unchanged; `isLoading` is false on every path; `Valid()` is kept |
| `ContactController.ContactForm.Change` | src/app/components/contact/Contact.tsx:111-120 | sets exactly field `name`; removes that field's error if shown and leaves all other errors; the flags do not change; `Valid()` is kept |
| `ContactController.ContactForm.ClearSuccess` | src/app/components/contact/Contact.tsx:99 | the timer sets `submitSuccess` to false and changes nothing else |
| `ContactScenarios.SubmitUntouchedForm` | src/app/components/Contact.tsx:150-154 | from the first render, submit never sends, puts an error with its rule's message on every field, and keeps the empty values and a hidden notice |
| `ContactScenarios.SubmitWithBlankPhone` | src/app/components/Contact.tsx:23-26 | valid name, e-mail and message with the untouched phone `""` still do not send, and the only error is the phone's |
| `ContactScenarios.OmittedPhonePasses` | src/app/components/contact/Contact.tsx:11-14 | the same values with the phone absent are accepted by the schema |
| `ContactScenarios.EditAfterFailedSubmit` | src/app/components/Contact.tsx:191-200 | a failed submit sends nothing; editing the name afterwards clears the name error only and changes only the name |
| `ContactScenarios.SendThenTimer` | src/app/components/Contact.tsx:171-179 | a valid form is sent with exactly the typed values; afterwards the fields are empty, there are no errors and the notice is shown; the timer alone then hides it, leaving the first-render state (not loading) |
| `ContactScenarios.RetryAfterFailedSend` | src/app/components/Contact.tsx:180-185 | a failed send keeps the typed values and ends not loading, so a retry sends the same payload |

## Left out

- The outbound send (`emailjs.send` and its three identifiers from the environment) is an external network call; only its success or failure is modelled, as `Submit`'s parameter.
- `alert` and `console.error` on a failed send are output only; the model keeps no record of the alert.
- zod's e-mail syntax check is internal to the zod library; it is a parameter of the form, and the only fact used about it is that it rejects `""`, stated as a precondition where it is needed.
- The `else` of `error instanceof z.ZodError` in `validateForm` is not modelled: parsing four strings against this schema throws only a `ZodError`.
- `Submit` runs as one atomic step: the `await` of the send is not split, so edits or the timer that could run while the send is in flight are not modelled, and `isLoading` is observable as true only inside `Submit`. `Submit` requires `!isLoading` because the submit button is disabled while loading (src/app/components/contact/ContactForm.tsx:156, src/app/components/Contact.tsx:353).
- The e-mail input has `type="email"` and the form does not set `noValidate` (src/app/components/contact/ContactForm.tsx:44, :83; src/app/components/Contact.tsx:240, :280), so the browser may refuse a non-empty, malformed address before `handleSubmit` runs; `Submit` models the handler once the browser lets the submit through, and the browser's own check is not modelled.
- React's batching of state updates is not modelled; each handler is one sequential update.
- The timer is the event `ClearSuccess`, which may happen at any point; real time and the 5000 ms delay are not modelled.
- Setting an error to `undefined` in `handleChange` is modelled as removing the key, since every reader of the error map treats an `undefined` entry as absent.
- `handleChange` takes the field from the input's `name` attribute; the model restricts it to the four names the form's inputs carry.
- String lengths are counted in Dafny characters; JavaScript's `length`, which zod uses, counts UTF-16 code units, so the two differ for characters outside the Basic Multilingual Plane.
- All animation (the GSAP effect of the older file and of `useContactAnimation`, the success-message tween) and the form's markup are rendering only.
