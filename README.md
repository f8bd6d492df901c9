# NeighbourHelp front end — a Dafny model of its client-side logic

NeighbourHelp is a browser front end for a local-services marketplace. All
persistence, authentication and rating aggregation happen behind a remote
HTTP API. What the client itself decides is small and self-contained, and this
project models exactly that, component by component:

- **Sign-in / sign-up page** (`src/pages/AuthPage.jsx`, module `Auth`): the
  ordered validator, the single-field form update, the two tabs, and the
  submit handler that picks `/auth/login` or `/auth/register` and drives the
  `loading` and `message` flags.
- **Profile editor** (`src/pages/ProfilePage.jsx`, module `Profile`): the
  mapping of the fetched user onto the form, the validator (name, phone and
  address always required), the update body and the password reset on
  success.
- **Add-service overlay** (`src/components/AddServiceModal.jsx`, module
  `AddService`): the flat-form-to-nested-body mapping (a bijection), the reset
  on success, the callbacks, and the flag transitions.
- **Service page** (`src/pages/ServiceProfile.jsx`, module `ServiceView`): the
  star selector and its highlight rule, the review-star fill rule, the display
  fallbacks, and the review submission guard and state reset.

Shared pieces: `Common` (optional values, the outcome of an API call,
JavaScript's `s || fallback` on strings), `EmailPattern` (the regular
expression `^[^\s@]+@[^\s@]+\.[^\s@]+$`, read both as its grammar and as an
explicit check, proved equivalent), and `FormValidation` (the checks both
validators run in order, and `FirstFailure`, the reference definition of
"the first failing check's message wins").

Each component is a class whose fields are the component's state; each
handler is a method whose `modifies` frame names the only fields it may
change. Network results are parameters (`Outcome.Ok(data)` or
`Outcome.Err(serverMessage)`). A submit that awaits a request behind a busy
flag (sign-in, add-service) is split into `HandleSubmit`, which runs up to the
`await`, and `Settle`, which runs the rest and the `finally`; the class
invariant `Valid()` says `loading` is set exactly while a request is pending.

Where the documented API and the code disagree, the model follows the code:
the login request carries the whole form (name, phone, address and role
included), not just the e-mail and password; and the profile update demands a
password of at least six characters although the documentation and the
input's placeholder call it optional.

## Model

| member | source | states |
|---|---|---|
| `FormValidation.FirstFailure` | src/pages/AuthPage.jsx:25-45 | None iff every check passes; otherwise the message of some failing check all of whose predecessors pass (the first failure wins) |
| `FormValidation.FirstFailureAgrees` | src/pages/AuthPage.jsx:38-43 | entries every check judges alike get the same verdict, so a validator never depends on a field its checks do not read |
| `EmailPattern.ValidEmailIffMatches` | src/pages/AuthPage.jsx:30 | the explicit reading (no whitespace, one '@', non-empty local part, interior '.' in the domain) accepts exactly the strings the regular expression matches |
| `EmailPattern.ValidEmailMatches` | src/pages/AuthPage.jsx:30 | every explicitly valid address splits as A '@' B '.' C with A, B, C runs of `[^\s@]` |
| `EmailPattern.MatchesValidEmail` | src/pages/ProfilePage.jsx:52 | every string the pattern matches has no whitespace, one '@', a non-empty local part and an interior '.' in its domain |
| `EmailPattern.ValidEmailNonEmpty` | src/pages/AuthPage.jsx:26-33 | a valid address has at least five characters, so an empty e-mail is always caught by the required-field check first |
| `Auth.AuthForm.With` | src/pages/AuthPage.jsx:21-23 | the named field takes the new value and every other field is unchanged |
| `Auth.Validate` | src/pages/AuthPage.jsx:25-45 | equals the first failure of [credentials present, e-mail pattern, password length >= 6, and in sign-up mode only name/phone/address present]; passes iff the e-mail is valid, the password has >= 6 characters and, in sign-up mode, the contact fields are filled; an empty e-mail or password always gives "Email and password are required" |
| `Auth.SignInIgnoresContact` | src/pages/AuthPage.jsx:38-43 | in sign-in mode the name, phone and address never change the verdict |
| `Auth.Endpoint` | src/pages/AuthPage.jsx:53 | the endpoint is `/auth/login` iff in sign-in mode, `/auth/register` otherwise |
| `Auth.FailureMessage` | src/pages/AuthPage.jsx:60 | the server's message when present and non-empty, otherwise "Something went wrong"; never empty |
| `Auth.SettledMessage` | src/pages/AuthPage.jsx:57-60 | on success "Login successful!" iff the request was a sign-in, "Account created!" iff a sign-up; on failure the failure message |
| `Auth.AuthPage.constructor` | src/pages/AuthPage.jsx:6-16 | starts in sign-in mode with the empty form (role "consumer"), no message, not loading |
| `Auth.AuthPage.HandleChange` | src/pages/AuthPage.jsx:21-23 | only the form changes, and only in the named field |
| `Auth.AuthPage.ShowSignIn` | src/pages/AuthPage.jsx:80-83 | switches to sign-in mode and clears the message; the form is kept |
| `Auth.AuthPage.ShowSignUp` | src/pages/AuthPage.jsx:91-94 | switches to sign-up mode and clears the message; the form is kept |
| `Auth.AuthPage.HandleSubmit` | src/pages/AuthPage.jsx:47-54 | a form that fails validation sends nothing, shows the validator's message and leaves `loading` false; otherwise it sends the whole form to the mode's endpoint with `loading` set and the message cleared |
| `Auth.AuthPage.Settle` | src/pages/AuthPage.jsx:55-63 | after the request settles `loading` is false whatever the outcome and the message is the settled message of the request as sent |
| `Profile.ProfileForm.With` | src/pages/ProfilePage.jsx:153-224 | the edited field takes the new value, every other field and the id are unchanged |
| `Profile.Validate` | src/pages/ProfilePage.jsx:47-65 | equals the first failure of [credentials present, e-mail pattern, password length >= 6, name/phone/address present]; passes iff all four hold, so no update passes without a password of at least six characters; an empty password always gives "Email and password are required" |
| `Profile.FormFromUser` | src/pages/ProfilePage.jsx:29-36 | id, name and e-mail are copied, a missing or empty phone or address becomes "", the password is "", and the loaded form fails validation with "Email and password are required" |
| `Profile.PasswordUnlocksLoadedProfile` | src/pages/ProfilePage.jsx:47-65 | after typing a password of >= 6 characters into a loaded form, it passes iff the fetched record has a valid e-mail, a name, a phone and an address |
| `Profile.ProfilePage.constructor` | src/pages/ProfilePage.jsx:6-15 | starts with the empty form, no message, loading |
| `Profile.ProfilePage.FetchUserData` | src/pages/ProfilePage.jsx:20-42 | `loading` ends false either way; on success the form is the mapped record, on failure the form is kept and the message is "Failed to load profile" |
| `Profile.ProfilePage.HandleChange` | src/pages/ProfilePage.jsx:153-224 | only the form changes, and only in the edited field |
| `Profile.ProfilePage.HandleUpdate` | src/pages/ProfilePage.jsx:68-93 | a failing form sends nothing and shows the validator's message; otherwise the body is exactly the form; on success the message is "Profile updated successfully!" and only the password is reset; on failure the message is "Error updating profile" and the form is kept |
| `AddService.ServiceForm.With` | src/components/AddServiceModal.jsx:18-20 | the named field takes the new value and every other field is unchanged |
| `AddService.FormOf` | src/components/AddServiceModal.jsx:31-37 | reading a body back copies `serviceName`, `description` and `serviceType`, takes the phone from `contactInfo.phone` and the hours from `workingHours.start` / `.end` |
| `AddService.BodyOf` | src/components/AddServiceModal.jsx:31-37 | the body maps `contactPhone`, `workingStart`, `workingEnd` into the nested objects and copies the rest, losslessly: reading it back gives the form |
| `AddService.BodyOfFormOf` | src/components/AddServiceModal.jsx:31-37 | every body is the body of the form read back from it, so the mapping is a bijection |
| `AddService.AddServiceModal.constructor` | src/components/AddServiceModal.jsx:5-16 | starts with six empty fields, no message, not loading, no callback fired |
| `AddService.AddServiceModal.HandleChange` | src/components/AddServiceModal.jsx:18-20 | only the form changes, and only in the named field |
| `AddService.AddServiceModal.HandleSubmit` | src/components/AddServiceModal.jsx:22-37 | sets `loading`, clears the message and sends the body built from the form |
| `AddService.AddServiceModal.Settle` | src/components/AddServiceModal.jsx:46-62 | `loading` ends false; on success the message is "Service added successfully!", all six fields are emptied, `onServiceAdded` fires exactly once and closing is scheduled; on failure the message is "Error adding service" and form and callbacks are untouched |
| `ServiceView.CountTrueOfPrefix` | src/pages/ServiceProfile.jsx:243-249 | a row whose first n stars are filled has exactly n filled stars |
| `ServiceView.SelectorStars` | src/pages/ServiceProfile.jsx:188-205 | five stars; with a hover star k is lit iff k <= hover, without one iff k <= rating; the number lit is `hover \|\| rating` clamped to 0..5 |
| `ServiceView.ReviewStars` | src/pages/ServiceProfile.jsx:243-249 | five stars, star i filled iff i < rating, so a rating in 0..5 fills exactly that many |
| `ServiceView.HoursText` | src/pages/ServiceProfile.jsx:167-169 | "start - end" when the start is present, otherwise "Flexible hours"; never empty |
| `ServiceView.CardOf` | src/pages/ServiceProfile.jsx:131-169 | the description, or "No description provided" when it is missing or empty; the provider's name, e-mail and phone, each falling back to "N/A" / "Not provided" when missing or empty or when there is no provider; the hours line; the review count, or 0 when missing; no text of the card is ever blank |
| `ServiceView.EntryOf` | src/pages/ServiceProfile.jsx:243-256 | a review shows its star row, the reviewer's name or "Anonymous", and its comment or "No comment provided" |
| `ServiceView.PanelOf` | src/pages/ServiceProfile.jsx:232-263 | the "No reviews yet" text iff the list is empty, otherwise one entry per review in order |
| `ServiceView.ServiceProfile.constructor` | src/pages/ServiceProfile.jsx:10-14 | no service, no reviews, rating 0, no hover, empty comment |
| `ServiceView.ServiceProfile.LoadService` | src/pages/ServiceProfile.jsx:16-28 | a fetched service replaces the state; a failed fetch leaves it (the page stays on its loading text) |
| `ServiceView.ServiceProfile.LoadReviews` | src/pages/ServiceProfile.jsx:30-42 | a fetched list replaces the reviews; a failed fetch leaves them |
| `ServiceView.ServiceProfile.ClickStar` | src/pages/ServiceProfile.jsx:188-193 | clicking star k sets the rating to k, keeping it in 0..5 |
| `ServiceView.ServiceProfile.EnterStar` | src/pages/ServiceProfile.jsx:194 | hovering star k sets hover to k |
| `ServiceView.ServiceProfile.LeaveStar` | src/pages/ServiceProfile.jsx:195 | leaving a star clears hover |
| `ServiceView.ServiceProfile.EditComment` | src/pages/ServiceProfile.jsx:216-217 | the comment becomes the typed text |
| `ServiceView.ServiceProfile.SubmitReview` | src/pages/ServiceProfile.jsx:44-63 | with rating 0 it only alerts "Please select a rating!" and changes nothing; otherwise it posts {rating, comment}; on success rating, comment and hover are reset and the reviews are replaced by the re-fetched list (kept if the re-fetch fails), never appended to; on failure nothing changes |

## Left out

- The remote API, axios, the base URL and the `Authorization` header: each request's outcome is a parameter of the handler that awaits it.
- `localStorage` (the token and user info stored after sign-in, read before authenticated requests, removed on logout) and the logout buttons.
- `navigate`, the one-second `setTimeout` delays and the order in which `useEffect` fetches settle; the delayed `onClose` of the add-service overlay is recorded only as the flag `closeScheduled`.
- Browser constraint validation from the `required` and `type="email"` input attributes: it happens before any handler runs, and the model takes the handlers as they are called.
- Message colours, animations, icons and styling; the avatar letter; `console.error` logging.
- `rating?.toFixed(1)` on the service card and in the dashboard: floating-point formatting.
- `src/pages/Dashboard.jsx` (one fetch, `data || []`, a list or an empty state) and `src/App.jsx` (three static routes, no guard): no decision logic.
- Password length: the client counts UTF-16 code units; the model counts characters, which differ only for characters outside the Basic Multilingual Plane.
- Values the server might send in another type than expected (a name that is `undefined`, a number where a string is expected) are typed as the model's strings and numbers; a working-hours `end` that is missing while `start` is present is modelled as a string.
- Profile.ProfilePage.HandleUpdate: handles the PUT and its outcome in one step, so an edit typed while the request is in flight, which the source's success path would overwrite with the form as it was at submission, is not modelled.
- ServiceView.ServiceProfile.SubmitReview: handles the POST and the re-fetch in one step, so the moment between the state reset and the arrival of the new list is not modelled; nothing prevents a second submission in the source, and the model does not interleave two.
