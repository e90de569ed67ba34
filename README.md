# genMillenauts front end: session, sign-up flows and page state in Dafny

This project models the decision logic and state changes of the
genMillenauts React front end. That logic covers:

- the Redux `auth` slice and its `localStorage` mirror;
- the `ProtectedRoute` gate;
- the request-state slices `stress`, `slots` and `bookings`;
- the two auth hooks `useAuthApi` and `useTherapistApi`, which normalise backend replies;
- the user sign-up flow (`SignupPage` with `SignUpForm`, `OTPInput` and `RegisterForm`);
- the therapist sign-up and registration pages;
- the slot-booking status map;
- the alert-contact list and form;
- the AI chat log;
- two pure dashboard helpers: the stress colour and the daily journal prompt.

Each part is modelled in the form the code has:

- **Slices and component state** are classes. Each reducer and handler is a method whose `modifies` clause names what it changes. Its `ensures` gives the whole new state.
- **Decision rules** are functions with named results. Their contracts state the rule, including both directions of every "exactly when".
- **Network replies** are parameters. `Outcome<T>` is either `Resolved(value)` or `Threw(Failure(responseData, message))`, so every branch of every `try`/`catch` is reachable.
- **JavaScript values** are `JsValues.Json`. On top of it sit truthiness (`Truthy`), `a || b` (`OrElse`), optional chaining (`Field`) and `=== true` (`IsTrue`). JSON `null` and a missing member are both `None`.
- **Toasts** are returned as a sequence of `SuccessToast`/`ErrorToast` values. This fixes both the texts and their order.

One module per source file, plus:

- `JsValues`, the JavaScript value layer;
- `BrowserStorage`, the two `localStorage` entries;
- `SignupFlow`, which runs the user sign-up flow as a sequence of events and proves trace properties over it. The OTP component's rule is a parameter (`OtpInput.Rule`), so each property is stated for the code as written, for the corrected rule of the findings below, or for both.

Facts about the code that a reader might not expect, which the model follows:

- A successful user registration does not create a session. `handleRegister` never dispatches `authSuccess`, and `RegisterForm` sends the user to `/login`.
- The route guard has two separate denials for a bad token: an undecodable token and an expired token. Each has its own toast, and both log the session out.
- The role check compares the exact string `"THERAPIST"` (or whatever `requiredRole` is).
- `useAuthApi` reports failures as result values, but `useTherapistApi` rethrows (and its `register` throws on refusal).
- A network failure in `useAuthApi` does change the store: it dispatches `setError`.
- No `updateProfile` reducer exists in the `auth` slice.

## Model

| member | source | states |
|---|---|---|
| AuthSlice.Rehydrate | src/redux/slices/authSlice.js:4-14 | the initial state is the stored token/role/user triple when the entry exists, otherwise all absent; not loading, no error |
| AuthSlice.RehydrateAfterLogout | src/redux/slices/authSlice.js:38-47 | reloading after `logout` yields exactly the state `logout` produced |
| AuthSlice.AuthStore.constructor | src/redux/slices/authSlice.js:4-14 | the store starts at the rehydrated state and mirrors storage |
| AuthSlice.AuthStore.StartLoading | src/redux/slices/authSlice.js:20-22 | only `loading` becomes true; the session and error are unchanged and the storage mirror is kept |
| AuthSlice.AuthStore.ResetLoading | src/redux/slices/authSlice.js:23-25 | only `loading` becomes false; everything else unchanged |
| AuthSlice.AuthStore.AuthSuccess | src/redux/slices/authSlice.js:26-33 | token, role and user become the payload and `loading` false; `error` is unchanged; the same triple is persisted, so a reload rehydrates it |
| AuthSlice.AuthStore.SetError | src/redux/slices/authSlice.js:34-37 | `loading` false and `error` the payload; the session is unchanged |
| AuthSlice.AuthStore.Logout | src/redux/slices/authSlice.js:38-47 | the state becomes the all-absent session whatever it was (hence idempotent) and the stored entry is removed |
| ProtectedRoute.LoginPath | src/components/Auth/ProtectedRoute.jsx:24-25 | `/therapist/login` exactly when the required role is `"THERAPIST"`, otherwise `/login` |
| ProtectedRoute.Expired | src/components/Auth/ProtectedRoute.jsx:36-39 | expired exactly when `exp` is at most the last whole second that began before now; no numeric `exp` never expires |
| ProtectedRoute.WrongRole | src/components/Auth/ProtectedRoute.jsx:52 | a route without a (non-empty) required role accepts every session; otherwise only the exact role string passes |
| ProtectedRoute.Decide | src/components/Auth/ProtectedRoute.jsx:28-59 | checks token, decode, strict expiry and role in that order, each denial exactly when the earlier checks pass and its own fails; every denial goes to the same login path; render exactly when all pass |
| ProtectedRoute.NoTokenNeedsNoDecode | src/components/Auth/ProtectedRoute.jsx:28-31 | without a token the decision does not depend on the decoder, so no decode happens |
| ProtectedRoute.ExpiryIsStrict | src/components/Auth/ProtectedRoute.jsx:36-43 | a token whose `exp` equals the current time is not expired; one millisecond later it is |
| ProtectedRoute.NullExpiryHasExpired | src/components/Auth/ProtectedRoute.jsx:36-43 | a token whose `exp` is `null` (converted to 0) is expired at any positive time |
| ProtectedRoute.Guard | src/components/Auth/ProtectedRoute.jsx:27-56 | the decision for the store's session, with one error toast naming the denial and none on render; an expired or undecodable token logs the session out and clears storage; every other outcome leaves store and storage unchanged |
| StressSlice.Settle | src/redux/slices/stressSlice.js:17-24 | fulfils exactly on an ok reply, with its body; a non-ok reply rejects with the body's message or the endpoint's fallback text (never empty); a throw rejects with `error.message` |
| StressSlice.StressStore.constructor | src/redux/slices/stressSlice.js:78-84 | analysis and latest absent, weekly an empty array, not loading, no error |
| StressSlice.StressStore.Pending | src/redux/slices/stressSlice.js:88-91 | loading, error cleared, all data fields unchanged |
| StressSlice.StressStore.Fulfilled | src/redux/slices/stressSlice.js:92-95 | not loading; only the endpoint's own field is replaced |
| StressSlice.StressStore.Rejected | src/redux/slices/stressSlice.js:96-99 | not loading, error the payload, no data field changes |
| StressSlice.StressStore.Run | src/redux/slices/stressSlice.js:88-123 | pending then settle: a fulfilled run leaves no error and replaces only its field; a rejected one records the payload |
| SlotSlice.Rejection | src/redux/slices/slotSlice.js:16 | the backend message when truthy, otherwise `error.message` |
| SlotSlice.SlotStore.constructor | src/redux/slices/slotSlice.js:37-41 | empty slots, not loading, no error |
| SlotSlice.SlotStore.Pending | src/redux/slices/slotSlice.js:45-48 | loading, error cleared, slots unchanged |
| SlotSlice.SlotStore.GenerateFulfilled | src/redux/slices/slotSlice.js:49-51 | only `loading` false; slots unchanged |
| SlotSlice.SlotStore.Rejected | src/redux/slices/slotSlice.js:52-55 | not loading, error the payload, slots unchanged |
| SlotSlice.SlotStore.FetchFulfilled | src/redux/slices/slotSlice.js:60-63 | slots become the payload, not loading |
| SlotSlice.SlotStore.FetchSlots | src/redux/slices/slotSlice.js:21-33 | a resolved fetch stores the slots with no error; a throw keeps the slots and records the rejection text |
| SlotSlice.SlotStore.GenerateSlots | src/redux/slices/slotSlice.js:7-19 | a refetch happens exactly when generate resolved; slots then come from the refetch; a failed generate keeps the slots and records its rejection |
| BookingSlice.BookingStore.constructor | src/redux/slices/bookingSlice.js:4-8 | empty bookings, not loading, no error |
| BookingSlice.BookingStore.Pending | src/redux/slices/bookingSlice.js:29-32 | loading, error cleared, bookings unchanged |
| BookingSlice.BookingStore.Fulfilled | src/redux/slices/bookingSlice.js:33-36 | bookings become the payload, not loading |
| BookingSlice.BookingStore.Rejected | src/redux/slices/bookingSlice.js:37-40 | not loading, error the payload, bookings unchanged |
| BookingSlice.BookingStore.SelectBookings | src/redux/slices/bookingSlice.js:44 | the list the slice holds, which `Fulfilled` replaces by the payload and `Pending`/`Rejected` keep |
| BookingSlice.BookingStore.FetchTherapistBookings | src/redux/slices/bookingSlice.js:10-21 | afterwards `selectBookings` gives the fetched list, or the old one with `error.message` recorded |
| UseAuthApi.SendOtp | src/hooks/useAuthApi.js:20-36 | success exactly for a literal `success: true`; the message is the reply's or "Failed to send OTP"; a throw toasts one text and returns and records "Network error" |
| UseAuthApi.VerifyOtp | src/hooks/useAuthApi.js:38-57 | success exactly for `success: true`; a refusal is a result, never a throw; a throw reports the response message or "Failed to verify OTP" |
| UseAuthApi.Register | src/hooks/useAuthApi.js:59-90 | success exactly when the request resolved with status below 400, returning the data; every failure toasts and records a non-empty message |
| UseAuthApi.Login | src/hooks/useAuthApi.js:93-132 | a session exists exactly when the reply has a token and the profile arrived; it is that token, the login role and the profile; a tokenless reply records no error; a profile failure toasts after the success toast |
| UseAuthApi.HandleSendOtp | src/hooks/useAuthApi.js:20-36 | the store ends not loading, with the error recorded only when one was dispatched; the session is untouched |
| UseAuthApi.HandleVerifyOtp | src/hooks/useAuthApi.js:38-57 | as above, for `verifyOtp` |
| UseAuthApi.HandleRegister | src/hooks/useAuthApi.js:59-90 | as above, for `handleRegister` |
| UseAuthApi.HandleLogin | src/hooks/useAuthApi.js:93-132 | on success the store holds and persists the session; otherwise only loading and error change; loading ends false |
| UseAuthApi.LoginSurvivesReload | src/hooks/useAuthApi.js:107-113 | after a successful login a reload rehydrates the same token, role and profile |
| UseTherapistApi.SendOtpEffects | src/hooks/useTherapistApi.js:30-45 | the reply passes through unchanged (resolve or rethrow), with the success toast or the response message / fallback |
| UseTherapistApi.VerifyOtpEffects | src/hooks/useTherapistApi.js:51-66 | the same pass-through for verification |
| UseTherapistApi.ShapeOf | src/hooks/useTherapistApi.js:84-98 | confirmed exactly for `success === true`, refused exactly for `success === false`, otherwise unexpected |
| UseTherapistApi.ReplyMessage | src/hooks/useTherapistApi.js:82 | the reply's message when truthy, otherwise "Something happened." |
| UseTherapistApi.CaughtMessage | src/hooks/useTherapistApi.js:102-105 | the response message, else `error.message`, else "Something went wrong." |
| UseTherapistApi.RegisterEffects | src/hooks/useTherapistApi.js:72-114 | resolves exactly on a confirmed reply; a refused or unexpected reply throws an error carrying its message, toasted twice; every toast is non-empty |
| UseTherapistApi.TherapistApi.constructor | src/hooks/useTherapistApi.js:24 | not loading |
| UseTherapistApi.TherapistApi.SendOtp | src/hooks/useTherapistApi.js:30-45 | the call's effects, with `loading` false afterwards |
| UseTherapistApi.TherapistApi.VerifyOtp | src/hooks/useTherapistApi.js:51-66 | the call's effects, with `loading` false afterwards |
| UseTherapistApi.TherapistApi.Register | src/hooks/useTherapistApi.js:72-114 | the call's effects, with `loading` false afterwards |
| SignupPage.ViewOf | src/pages/SignupPage.jsx:50-71 | exactly the current step's component is shown; the OTP and register steps receive the carried contact |
| SignupPage.SignupPage.constructor | src/pages/SignupPage.jsx:18-19 | send step, empty contact |
| SignupPage.SignupPage.HandleOtpSent | src/pages/SignupPage.jsx:22-25 | the contact becomes the email and the step becomes the OTP step |
| SignupPage.SignupPage.HandleOtpVerified | src/pages/SignupPage.jsx:27-29 | register step, same contact, never an earlier step |
| SignUpForm.OtpSentWith | src/components/Auth/SignUpForm.jsx:23-38 | the page moves on exactly when the email is non-empty and the send succeeded, and it is given that email |
| SignUpForm.OnSubmit | src/components/Auth/SignUpForm.jsx:23-38 | an empty email alerts and leaves the store alone; otherwise the entered email is sent and the page (if given) moves on exactly when the send succeeded |
| OtpInput.SubmitEffectsAsWritten | src/components/Auth/OTPInput.jsx:24-49 | the guards call nothing; the request is exactly the contact and code; verified exactly when `apiFn` resolves; the failure texts are "Please enter OTP.", "Missing contact information for verification." and, on a throw, the response message or "Invalid OTP." |
| OtpInput.SubmitEffects | src/components/Auth/OTPInput.jsx:24-49 | the corrected rule: verified exactly when `apiFn` resolved to a value not marked `success: false`; such a refusal shows the reply's message or "Invalid OTP."; the other failure texts are the code's, and it agrees with the code except on a refusal |
| OtpInput.OtpInput.constructor | src/components/Auth/OTPInput.jsx:21 | no error shown |
| OtpInput.OtpInput.OnSubmit | src/components/Auth/OTPInput.jsx:24-49 | the request, the callback and the error text are those of the chosen rule: as written, or corrected |
| OtpInput.OtpInput.HandleSubmit | src/components/Auth/OTPInput.jsx:58-68 | a code breaking the six-character rule calls nothing and keeps the error; the request is made exactly for a valid code and a non-empty contact |
| RegisterForm.Payload | src/components/Auth/RegisterForm.jsx:38-41 | every form value unchanged, with `role` added or overridden to "USER" |
| RegisterForm.RegisterForm.constructor | src/components/Auth/RegisterForm.jsx:29-33 | the email field holds the prop; nobody registered |
| RegisterForm.RegisterForm.SetValue | src/components/Auth/RegisterForm.jsx:70-84 | the named field becomes the typed value, every other field and the registered user unchanged |
| RegisterForm.RegisterForm.ShowsForm | src/components/Auth/RegisterForm.jsx:64 | the form is shown while nobody is registered; a recorded user object replaces it by the confirmation |
| RegisterForm.RegisterForm.Submit | src/components/Auth/RegisterForm.jsx:36-56 | a form missing a required value submits nothing; otherwise the payload is sent, and only a success records the user, adds the page toast and redirects to `/login` |
| SignupFlow.UserApiOutcome | src/pages/SignupPage.jsx:58-61 | the user flow's `apiFn` always resolves, to the hook's result object |
| SignupFlow.RefusedOtpAdvancesAsWritten | src/components/Auth/OTPInput.jsx:40-49 | with the code as written, a reply `success: false` still moves the user flow to registration |
| SignupFlow.UserOtpVerifiedIff | src/components/Auth/OTPInput.jsx:40-49 | with the corrected rule, the user flow moves on exactly when contact and code are non-empty and the backend said `success: true` |
| SignupFlow.Next | src/pages/SignupPage.jsx:22-29 | under either rule, one event moves the page at most one step forward and never back; the contact changes only to an email submitted on the send step |
| SignupFlow.Run | src/pages/SignupPage.jsx:18-29 | under either rule, over any sequence of events, steps only move forward |
| SignupFlow.RegisterNeedsConfirmedOtp | src/pages/SignupPage.jsx:27-29 | with the corrected rule, the register step is entered only from the OTP step, by a valid code for a non-empty contact that the backend confirmed |
| SignupFlow.OtpStepAdvancesAsWritten | src/components/Auth/OTPInput.jsx:40-49 | with the rule as written, the OTP step moves to registration exactly for a valid code and a non-empty contact, whatever the backend replied |
| SignupFlow.RunKeepsContact | src/pages/SignupPage.jsx:22-29 | under either rule, once the OTP was sent, the contact never changes and the send step never returns |
| SignupFlow.ContactWasSubmitted | src/pages/SignupPage.jsx:22-25 | under either rule, the contact the later steps use is one the user submitted |
| SignupFlow.HappyPath | src/pages/SignupPage.jsx:18-71 | under either rule, two confirmed replies take a fresh page to the register form, given the submitted email |
| TherapistSignupPage.ContactPayload | src/pages/TherapistSignupPage.jsx:41-47 | exactly one key: `email` with the raw input when it contains '@', otherwise `mobile` with "+91" prepended |
| TherapistSignupPage.TherapistSignupPage.constructor | src/pages/TherapistSignupPage.jsx:21-24 | send step, empty input |
| TherapistSignupPage.TherapistSignupPage.SetInput | src/pages/TherapistSignupPage.jsx:92 | the input becomes the typed value; the step is unchanged |
| TherapistSignupPage.TherapistSignupPage.View | src/pages/TherapistSignupPage.jsx:75-117 | the contact form exactly on the send step; the OTP input is given the raw input |
| TherapistSignupPage.TherapistSignupPage.HandleSendOtp | src/pages/TherapistSignupPage.jsx:33-57 | an empty input toasts and calls nothing; otherwise the classified payload is sent and the step advances exactly when the call resolved |
| TherapistSignupPage.TherapistSignupPage.HandleOtpVerified | src/pages/TherapistSignupPage.jsx:59-63 | navigates to `/therapist/register` carrying the raw input |
| TherapistSignupPage.TherapistSignupPage.SubmitOtp | src/pages/TherapistSignupPage.jsx:112-117 | with the component as written, the registration page is reached exactly for a valid code and a non-empty contact whose verification resolved, a resolved `success: false` included; the hook's toasts, the form's error text and `loading` are those of the call, and nothing is called for an invalid code or empty contact; the verify request carries the raw input and the code, without the country code |
| TherapistSignupPage.PrefixOnlyOnSend | src/pages/TherapistSignupPage.jsx:46 | for a mobile number the OTP request carries a different string from the raw input |
| TherapistRegisterPage.ContactKey | src/pages/TherapistRegisterPage.jsx:57-61 | `email` exactly when the contact contains '@', otherwise `mobile` |
| TherapistRegisterPage.RegisterPayload | src/pages/TherapistRegisterPage.jsx:55-61 | every form field unchanged plus exactly one contact key, holding the raw contact |
| TherapistRegisterPage.TherapistRegisterPage.constructor | src/pages/TherapistRegisterPage.jsx:20-37 | the six empty fields and the carried contact |
| TherapistRegisterPage.TherapistRegisterPage.HandleChange | src/pages/TherapistRegisterPage.jsx:41-44 | only the named field changes |
| TherapistRegisterPage.TherapistRegisterPage.HandleSubmit | src/pages/TherapistRegisterPage.jsx:46-72 | a missing contact toasts and goes to `/therapist/signup` without calling; otherwise the payload is sent and the page goes to `/therapist/login` exactly when registration resolved |
| TherapistRegisterPage.MobileRegisteredWithoutPrefix | src/pages/TherapistRegisterPage.jsx:57-61 | a mobile number is registered without the "+91" its OTP request carried |
| TherapistSlotsBookingPage.ButtonDisabled | src/pages/TherapistSlotsBookingPage.jsx:152-155 | the button is disabled exactly for a slot whose status is set and not idle |
| TherapistSlotsBookingPage.ShowsArrow | src/pages/TherapistSlotsBookingPage.jsx:171-174 | a slot without a status shows the arrow; a booked slot never does |
| TherapistSlotsBookingPage.ArrowIffEnabled | src/pages/TherapistSlotsBookingPage.jsx:152-174 | the arrow is shown exactly when the button is enabled |
| TherapistSlotsBookingPage.FinalStatus | src/pages/TherapistSlotsBookingPage.jsx:56-83 | booked exactly when reservation and payment both resolved, idle on any failure, never left booking |
| TherapistSlotsBookingPage.SlotsBookingPage.constructor | src/pages/TherapistSlotsBookingPage.jsx:28 | no slot has a status |
| TherapistSlotsBookingPage.SlotsBookingPage.BeginBooking | src/pages/TherapistSlotsBookingPage.jsx:52 | that slot becomes booking, so its button is disabled |
| TherapistSlotsBookingPage.SlotsBookingPage.FinishBooking | src/pages/TherapistSlotsBookingPage.jsx:54-83 | payment uses the id the reservation returned, stored before paying; the slot ends booked or idle with the matching toast and redirect |
| TherapistSlotsBookingPage.SlotsBookingPage.HandleBooking | src/pages/TherapistSlotsBookingPage.jsx:50-84 | only that slot's entry changes; it ends disabled exactly when booking and payment both resolved; a resolved reservation's `bookingId` is stored and paid with, a failed one stores and pays nothing; booked toasts success and redirects to `/dashboard`, idle toasts the failure and stays |
| AlertContactsPage.Without | src/pages/AlertContactsPage.jsx:35 | exactly the contacts whose id differs are kept, and no new ones appear |
| AlertContactsPage.WithoutAppend | src/pages/AlertContactsPage.jsx:35 | the filter works piecewise over concatenation |
| AlertContactsPage.KeepsOthersInPlace | src/pages/AlertContactsPage.jsx:35 | a kept contact stays between the same neighbours, so order is preserved |
| AlertContactsPage.WithoutIdempotent | src/pages/AlertContactsPage.jsx:32-40 | deleting the same id twice is deleting it once |
| AlertContactsPage.AlertContactsPage.constructor | src/pages/AlertContactsPage.jsx:12-13 | no contacts, loading |
| AlertContactsPage.AlertContactsPage.View | src/pages/AlertContactsPage.jsx:66-70 | the loading state exactly while loading, the empty state exactly for an empty finished list |
| AlertContactsPage.AlertContactsPage.Mount | src/pages/AlertContactsPage.jsx:15-30 | without a token nothing is fetched; with one, loading ends false and the list is the fetched one or unchanged with a toast |
| AlertContactsPage.AlertContactsPage.HandleDelete | src/pages/AlertContactsPage.jsx:32-40 | a successful delete filters by id; a failed one leaves the list unchanged |
| AiCompanion.BotMessage | src/components/dashboard/AiCompanion.jsx:53-66 | a bot message: the reply's `reply` member, or the fixed apology on failure |
| AiCompanion.AiCompanion.constructor | src/components/dashboard/AiCompanion.jsx:24-33 | the log is the single greeting; empty input; not loading |
| AiCompanion.AiCompanion.SetInput | src/components/dashboard/AiCompanion.jsx:125 | the input becomes the typed value; the message log and `loading` unchanged |
| AiCompanion.AiCompanion.HandleSend | src/components/dashboard/AiCompanion.jsx:44-70 | blank input changes nothing; otherwise the user message and one bot message are appended, earlier messages kept, input cleared, loading false |
| AddAlertContactForm.ContactData | src/components/dashboard/AddAlertContactForm.jsx:45-48 | the phone gets "+91" prepended; the other fields pass through |
| AddAlertContactForm.PrefixRoundTrip | src/components/dashboard/AddAlertContactForm.jsx:47 | the entered phone is recovered from the sent one by dropping the prefix |
| AddAlertContactForm.AddAlertContactForm.constructor | src/components/dashboard/AddAlertContactForm.jsx:25-31 | three empty fields, both flags false |
| AddAlertContactForm.AddAlertContactForm.HandleChange | src/components/dashboard/AddAlertContactForm.jsx:34-36 | only the field with that id changes |
| AddAlertContactForm.AddAlertContactForm.BeginSubmit | src/components/dashboard/AddAlertContactForm.jsx:41-42 | loading true, success false |
| AddAlertContactForm.AddAlertContactForm.HandleSubmit | src/components/dashboard/AddAlertContactForm.jsx:39-65 | the prefixed data is sent; loading ends false; success exactly when the call resolved, with the matching toast and redirect |
| LatestStress.ColourOf | src/components/dashboard/LatestStress.jsx:26-30 | green exactly at most 3, yellow exactly 4 to 7, red exactly above 7 |
| LatestStress.ColourMonotone | src/components/dashboard/LatestStress.jsx:26-30 | a higher index never gets a milder colour |
| LatestStress.ColourOfValue | src/components/dashboard/LatestStress.jsx:46 | a numeric index is coloured by the thresholds; a missing (`undefined`) one is red |
| LatestStress.View | src/components/dashboard/LatestStress.jsx:12-23 | the placeholder exactly when the prop is falsy; otherwise the index with its colour and the mood |
| JournalPrompt.PromptFor | src/components/dashboard/JournalPrompt.jsx:30 | always one of the prompts, the one at `dayOfYear % 7` |
| JournalPrompt.PromptsDistinct | src/components/dashboard/JournalPrompt.jsx:13-21 | exactly seven prompts, no two equal |
| JournalPrompt.SamePromptIff | src/components/dashboard/JournalPrompt.jsx:30 | two day numbers show the same prompt exactly when they agree modulo 7 |
| JournalPrompt.ConsecutiveDaysDiffer | src/components/dashboard/JournalPrompt.jsx:26-30 | for a day of a 365- or 366-day year, the next day shows a different prompt, except from 31 December of a 365-day year to 1 January |
| JournalPrompt.RecursWeekly | src/components/dashboard/JournalPrompt.jsx:26-30 | the prompt seven days later is the same exactly when both days fall in the same year |
| JournalPrompt.NewYearRepeats | src/components/dashboard/JournalPrompt.jsx:26-30 | day 365 of a 365-day year and the following 1 January show the same prompt |

## Left out

- HTTP and service modules (`authService`, `therapistService`, `bookingService`, `slotService`, `userService`, `aiService`): these are thin wrappers over axios and fetch, so their replies are parameters.
- Streaming chat in `aiService`: stream I/O.
- JWT decoding: `jwtDecode` is not part of this model. `ProtectedRoute.Decide` takes the decoder as a function to `Claims` (undecodable, or an optional integer `exp`).
- The clock: the current time is an integer parameter in milliseconds. `dayOfYear` is a parameter from 1 to the year's length (`JournalPrompt.IsDayOfYear`); the date arithmetic that computes it, daylight-saving offsets included, is not modelled.
- `ProtectedRoute.Expired`: `exp` is the claim as `<` converts it to a number, chosen by the decoder parameter. A `null` claim is `Some(0)` and so expired (`ProtectedRoute.NullExpiryHasExpired`); a missing or non-numeric one is `None`. A fractional `exp` claim is not modelled, because JSON numbers are integers here.
- `LatestStress.ColourOfValue`: a string, array or object `stressIndex` is coloured red. JavaScript would first coerce it to a number (so `"5"` is yellow); that conversion is not modelled.
- Floating point in general: `Json.Num` holds integers.
- JSON serialisation of `localStorage`: an entry holds the value stored. `JSON.parse` of a corrupted "auth" entry, which would throw at load, is not modelled. `setItem("latestBookingId", …)` stringifying its value is not modelled either.
- `null` versus `undefined`: both are `None`. Truthiness and `?.` treat them alike. Relational comparison does not: `null` converts to 0 and `undefined` to `NaN`. The code compares possibly-null values in two places, `LatestStress` and `ProtectedRoute`; see their lines.
- `LatestStress.ColourOfValue`: a `null` `stressIndex` is read as missing and coloured red. JavaScript compares `null` as 0, so `null <= 3` holds and the card shows green.
- `String(...)` of a non-string message, such as `new Error(msg)` in `useTherapistApi.register`: the message is carried as the JSON value.
- JavaScript `!==` on objects compares references. `AlertContactsPage.Without` compares ids structurally, which agrees for the string and number ids the backend sends.
- Slot ids used as object keys are stringified in JavaScript. `TherapistSlotsBookingPage.SlotsBookingPage` keys its map by the JSON value.
- `TherapistSlotsBookingPage.SlotsBookingPage.FinishBooking`: a `bookSlot` reply that is not an object makes `bookingResponse.bookingId` absent in the model. In JavaScript it would throw only for `null`/`undefined`, which the model has no value for.
- `UseTherapistApi.RegisterEffects`: a `null` reply (`res.message` throwing) is not modelled, for the same reason.
- Intermediate states while a request is outstanding: each handler runs to completion. The `loading` flag's `true` phase is not observable, except through the separate begin methods where the code has a synchronous start (`BeginBooking`, `BeginSubmit`).
- Concurrency and interleaving of async calls: for example, two stress thunks sharing `loading`. The fetch dispatched by `generateSlots` is not awaited, but it is modelled as settling after `generateSlots.fulfilled`, which is the order it completes in when the requests do not race.
- Toasts outside the modelled handlers, `setTimeout` delays before navigation, framer-motion animation, video backgrounds and every purely presentational component are left out.
- Store wiring: `store.js` registers only `auth` and `stress` (src/redux/store.js:7-10). The slot and booking slices are modelled as standalone stores.
- `SettingsForm`: it imports `updateUser` and `selectUser`, which the `auth` slice does not export, so it has no behaviour to model.
- The slot list fetch and its rendering in `TherapistSlotsBookingPage`, and date formatting: presentation and I/O.
- Native HTML `required` and `type="email"` attributes on the `SignUpForm` email field and on the therapist and alert-contact forms: browser validation before the handler runs. The handlers' own empty-input branches (such as the empty-email alert of `SignUpForm.OnSubmit`) are modelled, though a browser normally keeps them from being reached.
- `userService` exports only `getMyProfile` (src/services/userService.js:6). `AlertContactsPage` imports `getAlertContacts` and `deleteAlertContact` from it, and `AddAlertContactForm` imports `addAlertContact`, so as shipped those imports do not resolve. `AlertContactsPage.AlertContactsPage` and `AddAlertContactForm.AddAlertContactForm` model the code as if those services existed, with their replies as parameters.
- `RegisterForm.RegisterForm.SetValue`: the email input is `readOnly` (src/components/Auth/RegisterForm.jsx:79); the model lets any field be typed into, the email included.
- `RegisterForm.RegisterForm.Submit`: react-hook-form's `required` rule is modelled as requiring a non-empty value for the three registered fields. The form library's own handling of whitespace-only values is not modelled.
- `OtpInput.OtpInput.HandleSubmit`: react-hook-form's length rule counts UTF-16 code units; the model counts characters.
- Observations the model makes visible without changing the code:
  - `selectBookings` reads `state.bookings.bookings`, but the application's store has no `bookings` entry (src/redux/store.js:7-10), so in the shipped app `state.bookings` is undefined and the selector throws. `BookingSlice.BookingStore.SelectBookings` models it for a store that mounts the slice.
  - `SignupPage` imports `../components/Auth/SignupForm` (src/pages/SignupPage.jsx:3), but the file is `SignUpForm.jsx`. The import fails on a case-sensitive file system; the model uses `SignUpForm` as if it resolved.
  - Without a token, `AlertContactsPage` never leaves its loading state.
  - A successful user registration does not log the user in.
  - Behind `handleSubmit`, `OTPInput`'s "Please enter OTP." guard can never fire, because the six-character rule already refuses an empty code.
  - In the therapist flow, `OTPInput` as written takes any resolved verify reply as a verified code, toasting success and navigating (`TherapistSignupPage.TherapistSignupPage.SubmitOtp`). The hook rethrows, so a refusal sent as an HTTP error is still caught.
  - The journal prompt repeats from 31 December to 1 January after a 365-day year, and its weekly cycle shifts at each new year (`JournalPrompt.NewYearRepeats`, `JournalPrompt.ConsecutiveDaysDiffer`, `JournalPrompt.RecursWeekly`). The component's comments say a new prompt is shown each day.

## Findings

| source | as written | input that shows it | evidently intended | confidence | as-written member | corrected member |
|---|---|---|---|---|---|---|
| src/components/Auth/OTPInput.jsx:40-49 | `onSubmit` treats the `apiFn` promise resolving as a verified code. In the user flow, `apiFn` is `useAuthApi().verifyOtp`, which catches every error and resolves to `{ success: false, message }` on a refusal, so a wrong code still calls `onOtpVerified` and moves the page to registration | verify reply `{ success: false, message: "Invalid OTP" }` for contact "user@example.com" and code "123456" | a resolved value with `success: false` is a failure. The page stays on the OTP step and shows the reply's message (or "Invalid OTP."). The therapist flow, whose `apiFn` rethrows, is modelled as written by `TherapistSignupPage.TherapistSignupPage.SubmitOtp` | not executed | OtpInput.SubmitEffectsAsWritten, SignupFlow.RefusedOtpAdvancesAsWritten, SignupFlow.OtpStepAdvancesAsWritten | OtpInput.SubmitEffects, SignupFlow.UserOtpVerifiedIff, SignupFlow.RegisterNeedsConfirmedOtp |
