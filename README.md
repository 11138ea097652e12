# Sign-up submit decision

A model of the submit handler of the sign-up page of a project-management
web client (`handleSubmit` in `src/pages/auth/SignUp.jsx`). One press of
"Sign Up" does the following:

- runs an ordered validation chain whose first failing check sets the
  displayed error and stops the submission;
- otherwise clears the error, uploads the profile photo if one is selected,
  and posts the sign-up body to `/auth/sign-up`;
- navigates to `/login` when the post succeeds, or shows the server's message
  (or a fixed fallback) when the upload or the post fails.

Modules:

- `Optional` (`option.dfy`): the `Option` type, standing for JavaScript's
  `null`/`undefined` versus a present value.
- `SignUp` (`sign_up.dfy`): the pure part.
  - `Validate` is the validation chain, and `FirstFailure` over `Checks` is an
    independent reference semantics for it.
  - `UploadedImageUrl` computes `profileImageUrl`, `BuildPayload` builds the
    request body, and `ErrorText` picks the catch-block message.
  - `SubmitTrace` gives the ordered effects of one submission: error updates,
    the upload request, the sign-up request and the navigation.
  - `Replay` gives the page state (`error`, `navigatedTo`) that a trace of
    effects leaves behind.
- `SignUpComponent` (`sign_up_page.dfy`): the component as a class. It has the form
  fields, the `error` field, the router target and a log of effects.
  `HandleSubmit` runs the handler step by step, reassigning a local
  `profileImageUrl` after the upload. It is proved to append exactly
  `SubmitTrace` to the log and to leave the state `Replay` predicts.

The outcomes of the two awaited calls are inputs (`Outcome`: resolved with a
value, or rejected with the thrown error reduced to
`error?.response?.data?.message`). The email validator imported by the page is
not part of this model: it is the parameter `validEmail: string -> bool`.
JavaScript truthiness on a string is "not the empty string", so a
whitespace-only name passes.

The admin-token message is `Admin invite token is required for admin signup`,
with no final full stop, as the code has it.

## Model

| member | source | states |
|---|---|---|
| SignUp.Validate | src/pages/auth/SignUp.jsx:28-35 | no error exactly when the name is non-empty, the email is valid, the password is non-empty and, in admin mode, the token is non-empty; an empty name always gives the name message; each later message is reported exactly when all earlier checks pass and its own check fails, so an invalid email hides an empty password and a non-admin form never gets the token message |
| SignUp.FirstFailureIsEarliest | src/pages/auth/SignUp.jsx:28-35 | an early-return chain reports the message of its earliest failing check |
| SignUp.FirstFailureNone | src/pages/auth/SignUp.jsx:28-37 | an early-return chain reports nothing exactly when no check fails |
| SignUp.ValidateIsFirstFailure | src/pages/auth/SignUp.jsx:28-35 | the validation equals the first failure of the ordered chain name, email, password, admin token |
| SignUp.UploadedImageUrl | src/pages/auth/SignUp.jsx:44 | the URL is non-empty exactly when the upload returned a non-empty `imageUrl`, and it is then that URL; otherwise it is "" |
| SignUp.BuildPayload | src/pages/auth/SignUp.jsx:47-53 | name, email and password are copied from the form, the image URL is passed through, and the join code is the invite token in admin mode and "" otherwise |
| SignUp.ErrorText | src/pages/auth/SignUp.jsx:56-60 | the shown message is never empty; it is the server's message when that is present and non-empty, and the fixed fallback otherwise |
| SignUp.SubmitTrace | src/pages/auth/SignUp.jsx:25-62 | a failed validation produces exactly one effect, setting that message; every submission starts by setting the error |
| SignUp.RejectedFormSendsNothing | src/pages/auth/SignUp.jsx:28-35 | when validation fails, no upload, no post and no navigation happen |
| SignUp.EmptyNameStopsSubmission | src/pages/auth/SignUp.jsx:28 | an empty name yields only the name message, whatever the other fields and the call outcomes are |
| SignUp.ResetPrecedesRequests | src/pages/auth/SignUp.jsx:37-47 | every request comes after the error was reset to null, and only when validation passed |
| SignUp.NavigationOnlyAfterSignUp | src/pages/auth/SignUp.jsx:47-55 | navigation to `/login` is the last effect and directly follows the sign-up request; it happens exactly when validation passed, the upload (if any) resolved and the post resolved |
| SignUp.UploadBeforeSignUp | src/pages/auth/SignUp.jsx:42-47 | the photo is uploaded exactly when validation passed and a photo is selected, and every upload comes before every sign-up request; the sign-up request is sent exactly when validation passed and the upload, if any, resolved |
| SignUp.RequestTrace | src/pages/auth/SignUp.jsx:39-61 | the try/catch block starts with the upload request exactly when a photo is selected and makes no other upload; it ends with navigation to `/login` exactly when the upload (if any) and the post resolved, and otherwise with an error message |
| SignUp.PostTrace | src/pages/auth/SignUp.jsx:47-60 | the post step is the sign-up request to `/auth/sign-up` carrying the built body, then navigation to `/login` exactly when the post resolved, and otherwise the failure text of the rejection |
| SignUp.SignUpRequestBody | src/pages/auth/SignUp.jsx:40-53 | the request goes to `/auth/sign-up`; the body carries the form's name, email and password; its join code is non-empty exactly in admin mode and is then the token; its image URL is "" without a photo and the upload's URL otherwise |
| SignUp.SubmitOutcome | src/pages/auth/SignUp.jsx:25-62 | after a submission the page shows the validation message, the upload's failure text, the post's failure text, or no error with the router at `/login`, case by case |
| SignUp.ErrorReflectsLatestSubmit | src/pages/auth/SignUp.jsx:28-60 | the error after a submission does not depend on the error before it; an error is shown exactly when the page did not navigate; a shown error is never empty |
| SignUpComponent.SignUpPage.constructor | src/pages/auth/SignUp.jsx:14-23 | a new page has empty fields, no admin mode, no photo, no error and no effects |
| SignUpComponent.SignUpPage.SetError | src/pages/auth/SignUp.jsx:18 | sets the displayed error and records that effect |
| SignUpComponent.SignUpPage.Send | src/pages/auth/SignUp.jsx:43-47 | an outgoing call (the upload or the sign-up request) is appended to the effect log and changes nothing else |
| SignUpComponent.SignUpPage.Navigate | src/pages/auth/SignUp.jsx:55 | the router target becomes the given path and the navigation is appended to the effect log |
| SignUpComponent.SignUpPage.HandleSubmit | src/pages/auth/SignUp.jsx:25-62 | appends exactly the submission's effects to the log; leaves the state those effects produce; reports a post exactly when validation passed and the upload (if any) resolved, which is exactly when the submission's effects contain the sign-up request |
| SignUpComponent.SignUpPage.Requests | src/pages/auth/SignUp.jsx:39-61 | the try/catch block appends the upload and post effects and leaves the state they produce |
| SignUpComponent.SignUpPage.PostSignUp | src/pages/auth/SignUp.jsx:47-60 | sends the request, then navigates on success or shows the failure text |

## Left out

- The rendered markup, styling and the password and token visibility toggles: presentation only.
- The shared HTTP client configuration (`src/utils/axioInstance.js`): base URL, timeout, headers and credentials are options of a third-party library that is not part of this model.
- The email validator and the image-upload helper are not part of this model. The first is the parameter `validEmail`. The second is an input outcome whose `imageUrl` may be missing.
- Asynchrony: the two awaited calls are sequential steps whose outcomes are inputs. What the page shows while a call is in flight, and a second submission started during one, are not modelled.
- SignUp.UploadedImageUrl: does not model an `imageUrl` or a server `message` that is present but not a string, because the model types both as optional strings.
- SignUpComponent.SignUpPage.PostSignUp: does not model `navigate` itself throwing, which the catch block would turn into an error message, because the router is not part of this model.
- `e.preventDefault()`: suppressing the browser's own form submission is browser behaviour outside the handler's decision; the model starts after it.
- React state batching: each `setError` call is modelled as an immediate write, in order.
