# CRB Checker signup and flow guard, in Dafny

This project models the two pieces of logic in the CRB Checker web client.

- **The flow guard** (`UserFlowContext`). Three flags record how far a user has come: `hasPurpose`, `hasGeneratedReport` and `hasPaid`. They are loaded from local storage when the provider starts and written back as one snapshot whenever one of them changes. On every route change under `/app/`, the guard sends the user to the single page the flags allow: the report page, the payment page or the dashboard.
- **The signup form** (`SignUp`). It validates five of its six fields with length rules, two regular expressions and an equality test, and it keeps at most one message per field. Editing a field clears that field's message. A submission that passes validation sends the form without the confirmation to the signup service. On success it stores a profile under `user`, resets the flow and goes to the report page.

Files:

- `Wrappers.dfy`: `Option`, used for "redirect to this page" and "leave the page alone".
- `Storage.dfy`: local storage as a map from keys to typed entries. It holds the flag snapshot, the user profile and opaque payloads, and `LoadFlags` reads the flags back.
- `UserFlowContext.dfy`: `Route`, the canonical page `Canonical`, the redirect decision `NextRoute` and its lemmas. The class `UserFlowProvider` holds the three flag fields and the storage map, with load, persist, the setters, `ResetFlow` and the redirect effect as a method.
- `SignUp.dfy`: the form and error records, the regular expressions as predicates over `seq<char>`, and one rule per field. The class `SignUpPage` holds the form state, with `ValidateForm`, `HandleChange` and `HandleSubmit`.

The main results:

- `NextRoute` has a closed form. A guarded pathname is redirected exactly when it is not the canonical page, and only ever to the canonical page.
- The two defensive checks at the end of the decision chain are unreachable.
- `hasPurpose` never affects the decision.
- After a reset, loading yields all flags false and the `user` entry is kept.
- The two patterns have closed forms. The phone pattern accepts exactly a `0` or `+254` prefix, then `1` or `7`, then eight ASCII digits, so the length is 10 or 13. The ID pattern accepts exactly eight ASCII digits.
- The form is valid exactly when every error message is empty.

## Notes on the code

- A setter writes the snapshot only when the flag's value changes, because the persist effect at src/contexts/UserFlowContext.tsx:47-53 depends on the three flag values.
- A stored snapshot that is not valid JSON makes the initialisers at src/contexts/UserFlowContext.tsx:20-45 throw. It is not reset to all-false.
- The form has six fields. The email field has no rule because its checks at src/auth/SignUp.tsx:52-58 are commented out, so its message is always empty.

## Model

| member | source | states |
|---|---|---|
| `Storage.LoadFlags` | src/contexts/UserFlowContext.tsx:20-45 | with no stored snapshot every flag starts false; with a snapshot, each flag is the stored value |
| `Storage.PersistThenLoad` | src/contexts/UserFlowContext.tsx:20-53 | loading right after the snapshot is written gives back the same three flags, whatever else is stored |
| `UserFlowContext.RoutePath` | src/contexts/UserFlowContext.tsx:63-78 | every redirect target lies under the guarded `/app/` prefix |
| `UserFlowContext.RoutePathInjective` | src/contexts/UserFlowContext.tsx:63-78 | the three target pathnames are pairwise distinct |
| `UserFlowContext.IsGuarded` | src/contexts/UserFlowContext.tsx:57 | `startsWith('/app/')`: true exactly when the first five characters are `/app/`; `/app` itself is not guarded |
| `UserFlowContext.Canonical` | src/contexts/UserFlowContext.tsx:62-78 | dashboard iff paid and report generated; payment iff report generated and not paid; report iff no report; the three cases are exhaustive and disjoint |
| `UserFlowContext.NextRoute` | src/contexts/UserFlowContext.tsx:55-95 | the decision chain, early returns and defensive checks included, equals: redirect to `Canonical(flags)` exactly when the pathname starts with `/app/` and differs from that page, otherwise no redirect |
| `UserFlowContext.UnguardedPathsStay` | src/contexts/UserFlowContext.tsx:56-59 | a pathname that does not start with `/app/` is never redirected; `/app` without the slash is not guarded |
| `UserFlowContext.RedirectIffNotCanonical` | src/contexts/UserFlowContext.tsx:61-95 | under `/app/`: no redirect iff the pathname is the canonical page, and any redirect goes to the canonical page |
| `UserFlowContext.RedirectIdempotent` | src/contexts/UserFlowContext.tsx:61-95 | evaluating the guard on the page it redirected to causes no further redirect |
| `UserFlowContext.DefensiveChecksUnreachable` | src/contexts/UserFlowContext.tsx:80-94 | removing the two defensive checks changes no decision; payment without a report and dashboard without payment or report are already redirected by the first three rules |
| `UserFlowContext.PurposeIgnored` | src/contexts/UserFlowContext.tsx:61-98 | changing `hasPurpose` never changes the decision |
| `UserFlowContext.DeepLinkScenarios` | src/contexts/UserFlowContext.tsx:61-95 | dashboard with nothing done goes to report; dashboard with a report but unpaid goes to payment; report page when paid goes to dashboard |
| `UserFlowContext.UserFlowProvider.constructor` | src/contexts/UserFlowContext.tsx:20-53 | each flag starts from the stored snapshot or false; the mount-time persist writes the snapshot; storage and flags agree |
| `UserFlowContext.UserFlowProvider.LoadRestoresFlags` | src/contexts/UserFlowContext.tsx:20-53 | while storage and flags agree, a fresh load from storage yields the current flags |
| `UserFlowContext.UserFlowProvider.Persist` | src/contexts/UserFlowContext.tsx:47-53 | the whole triple is written under `user_flow_state` and no other key changes |
| `UserFlowContext.UserFlowProvider.SetPurpose` | src/contexts/UserFlowContext.tsx:20-53 | only `hasPurpose` changes; the snapshot is rewritten exactly when the value changed; storage and flags still agree |
| `UserFlowContext.UserFlowProvider.SetHasPaid` | src/contexts/UserFlowContext.tsx:29-53 | only `hasPaid` changes; the snapshot is rewritten exactly when the value changed; storage and flags still agree |
| `UserFlowContext.UserFlowProvider.SetHasGeneratedReport` | src/contexts/UserFlowContext.tsx:38-53 | only `hasGeneratedReport` changes; the snapshot is rewritten exactly when the value changed; storage and flags still agree |
| `UserFlowContext.UserFlowProvider.ResetFlow` | src/contexts/UserFlowContext.tsx:100-106 | all three flags false; exactly `user_flow_state` and `crb_report_data` are removed and every other entry is kept |
| `UserFlowContext.UserFlowProvider.RedirectEffect` | src/contexts/UserFlowContext.tsx:55-98 | one evaluation calls `navigate` at most once, and with exactly the target `NextRoute` decides |
| `UserFlowContext.ResetThenLoad` | src/contexts/UserFlowContext.tsx:100-106 | after the two keys are removed a load yields all flags false, and any other key such as `user` keeps its entry |
| `SignUp.Set` | src/auth/SignUp.tsx:123-129 | the record update by field name sets the named field and leaves the other five unchanged |
| `SignUp.MatchDigitsToEnd` | src/auth/SignUp.tsx:71 | `\d{n}$` only matches an input of exactly n characters |
| `SignUp.MatchDigitsIff` | src/auth/SignUp.tsx:63-71 | `\d{n}$` matches exactly the strings of length n made of ASCII digits |
| `SignUp.MatchesPhonePattern` | src/auth/SignUp.tsx:63 | the phone regular expression as a predicate: the prefix `+254` or `0`, then the subscriber part `[17]\d{8}$`; an accepted number has length 10 or 13 |
| `SignUp.MatchesIdPattern` | src/auth/SignUp.tsx:71 | `^\d{8}$` as a predicate; an accepted ID has length 8 |
| `SignUp.PhonePatternIff` | src/auth/SignUp.tsx:63 | the phone pattern accepts exactly `0` or `+254`, then `1` or `7`, then eight ASCII digits |
| `SignUp.IdPatternIff` | src/auth/SignUp.tsx:71 | the ID pattern accepts exactly eight ASCII digits |
| `SignUp.FullNameError` | src/auth/SignUp.tsx:44-50 | the full-name message is empty or one of the field's two messages, and an empty name gets "Full name is required" |
| `SignUp.PhoneError` | src/auth/SignUp.tsx:60-66 | the phone message is empty or one of the field's two messages, and an empty number gets "Phone number is required" |
| `SignUp.IdNumberError` | src/auth/SignUp.tsx:68-74 | the ID message is empty or one of the field's two messages, and an empty ID gets "ID number is required" |
| `SignUp.PasswordError` | src/auth/SignUp.tsx:76-82 | the password message is empty or one of the field's two messages, and an empty password gets "Password is required" |
| `SignUp.ConfirmError` | src/auth/SignUp.tsx:84-90 | the confirmation message is empty or one of the field's two messages, and an empty confirmation gets "Please confirm your password" |
| `SignUp.FormErrors` | src/auth/SignUp.tsx:33-93 | the error record `validateForm` builds: the email message is always empty, and a record with no messages means every checked field was filled in |
| `SignUp.FullNameRule` | src/auth/SignUp.tsx:44-50 | empty gives "Full name is required", length 1-2 gives the minimum-length message, length 3 or more gives no message |
| `SignUp.PhoneRule` | src/auth/SignUp.tsx:60-66 | empty gives "Phone number is required"; a non-empty number gets the invalid-number message iff it is not a Kenyan mobile number; no message iff it is one |
| `SignUp.IdNumberRule` | src/auth/SignUp.tsx:68-74 | empty gives "ID number is required"; a non-empty value gets the 8-digit message iff it is not eight ASCII digits; no message iff it is |
| `SignUp.PasswordRule` | src/auth/SignUp.tsx:76-82 | empty gives "Password is required", length 1-3 gives the minimum-length message, length 4 or more gives no message |
| `SignUp.ConfirmRule` | src/auth/SignUp.tsx:84-90 | empty confirmation gives "Please confirm your password"; a non-empty one that differs from the password gives "Passwords do not match"; no message iff it is non-empty and equal, whether or not the password passes its own rule |
| `SignUp.ValidIffAllRulesHold` | src/auth/SignUp.tsx:33-93 | the error record is all empty iff name has 3+ characters, phone is a Kenyan mobile number, ID is eight digits, password has 4+ characters and the confirmation equals it; email is never consulted |
| `SignUp.RequiredTakesPrecedence` | src/auth/SignUp.tsx:44-90 | an empty field gets its "required" message even though it also fails the pattern; the email message is always empty |
| `SignUp.EightDigitsMatch` | src/auth/SignUp.tsx:71 | `12345678` matches `\d{8}$` |
| `SignUp.LocalPhoneAccepted` | src/auth/SignUp.tsx:60-66 | `0712345678` gets no phone message |
| `SignUp.InternationalPhoneAccepted` | src/auth/SignUp.tsx:60-66 | `+254712345678` gets no phone message |
| `SignUp.PhoneRejectedExamples` | src/auth/SignUp.tsx:60-66 | `12345` and `0812345678` get the invalid-number message |
| `SignUp.IdNumberExamples` | src/auth/SignUp.tsx:68-74 | `12345678` passes and the seven-digit `1234567` gets the 8-digit message |
| `SignUp.PasswordExamples` | src/auth/SignUp.tsx:76-90 | `abc` gets the minimum-length message while a matching confirmation passes; a mismatched confirmation fails even when the password is long enough |
| `SignUp.SignupData` | src/auth/SignUp.tsx:100 | the signup payload is the form minus the confirmation: putting the confirmation back gives the form |
| `SignUp.StoredUser` | src/auth/SignUp.tsx:104-109 | the stored profile copies name, phone and ID from the form, and its email is `exampleuser@gmail.com` |
| `SignUp.StoredUserIgnoresEmailAndPasswords` | src/auth/SignUp.tsx:104-110 | the typed email, password and confirmation never affect the stored profile |
| `SignUp.LandingAfterSignupIsStable` | src/auth/SignUp.tsx:113-116 | with the flags just reset, the guard leaves the report page alone, so the navigation after signup is final |
| `SignUp.SignUpPage.constructor` | src/auth/SignUp.tsx:12-28 | form data and error record start with all six fields empty |
| `SignUp.SignUpPage.ValidateForm` | src/auth/SignUp.tsx:33-94 | the stored error record is the per-field rules applied to the form; the result is true iff every message is empty |
| `SignUp.SignUpPage.HandleChange` | src/auth/SignUp.tsx:123-129 | the named field takes the new value and its message is cleared if it had one; every other field and message is unchanged |
| `SignUp.SignUpPage.HandleSubmit` | src/auth/SignUp.tsx:96-121 | invalid forms are rejected with nothing sent; a failed signup changes no flow state or storage; on success the payload is the form minus the confirmation, the profile is stored under `user`, the flow is reset and the next page is the report page |

## Left out

- JSX rendering, styling, icons and the two password-visibility toggles. They are presentation only.
- The `signup` call of the authentication hook. It is outside this model, and its outcome is the `signupSucceeds` parameter of `HandleSubmit`. Its loading flag, which disables the inputs, is not modelled.
- Toast notifications.
- React Router's `navigate` and `useLocation`. Navigation is the returned `Option<Route>`, or the list of `navigate` calls in `RedirectEffect`.
- React's effect scheduling. The setters persist right away when a value changes. `ResetFlow` does not model whether the persist effect re-writes `user_flow_state` after the reset.
- JSON serialisation. Storage entries are typed values. An entry under `user_flow_state` that is not a flag snapshot is treated as absent, and the exception `JSON.parse` throws on corrupt text is not modelled.
- The error that `useUserFlow` raises outside a provider. It is React context plumbing.
- `src/pages/_document.js`. It is a document shell with an analytics snippet and no logic.
- `SignUp.FullNameRule`, `SignUp.FullNameError`, `SignUp.PasswordRule`, `SignUp.PasswordError`, `SignUp.FormErrors`, `SignUp.ValidIffAllRulesHold`, `SignUp.SignUpPage.ValidateForm`: lengths are counted in Dafny characters, not in the UTF-16 code units JavaScript's `.length` counts, so names and passwords with characters outside the Basic Multilingual Plane are not modelled exactly.
