# FyndPro client core in Dafny

A model of the logic inside FyndPro's React marketplace client. In this marketplace, clients book tradespeople and employees manage their bookings, profile and posts. The model covers four things:

- the authenticated HTTP client (`src/api/axios.js`): it attaches the stored access token as a bearer credential (section 2.1 of RFC 6750). On a 401 (section 15.5.2 of RFC 9110) it refreshes the token once and re-issues the request, or it purges both tokens and sends the browser to `/login`;
- the Redux slices that wrap the REST calls (auth, booking, profile, user profile, posts): their thunks' request bodies and rejection payloads, and their reducers;
- the route guards and the navigation targets that the stored token and the user's role decide;
- the pages' own logic: the form handlers and submit guards, the multipart bodies they send, status transitions, filters and counters, the OTP boxes, and the carousel and chat box.

There is one Dafny module per source file. Two modules are shared:

- `Js` (`common.dfy`) models the JavaScript values these files handle, with their truthiness, `||`, optional chaining and the string helpers they call;
- `Forms` (`forms.dfy`) models the multipart bodies and the server address.

What each file does decides how it is modelled:

- **Pure logic** (selectors, rejection payloads, routing decisions, label and URL helpers) is written as functions with named results. Lemmas relate those functions to one another.
- **State the source updates in place** is written as a class. This covers the axios session, every slice's state under its reducers, and each page's `useState` variables. The methods `modifies` the object. Each method is proved equal to a specification function, or states its whole new state.
- **Async handlers** are split at their `await` into a `Begin…` and a `Finish…` method. The answer of the network call is an input to the second half.

The environment is passed in as data:

- browser storage is a `map<string, string>`, and `window.location` is a field;
- the network is a parameter holding each reply, and the clock and `Date.now()` are parameters;
- `URL.createObjectURL` is a parameter.

Three details of the token refresh in src/api/axios.js, which the model follows:

- The refresh call goes to the absolute address `http://127.0.0.1:8000/api/refreshtoken/` (`ApiClient.RefreshEndpoint`).
- A 401 with no refresh token stored rejects with the interceptor's own `Error("No refresh token")`, which replaces the original 401 error (`ApiClient.Failure.MissingRefreshToken`). A failed refresh rejects with the refresh call's error.
- A failure of the re-issued request is not caught by the interceptor's `try`, because it is returned without `await`. That failure is therefore passed to the caller as it is, with no logout (`ApiClient.RetriedSendIsFinal`).

## Model

| member | source | states |
|---|---|---|
| ApiClient.Bearer | src/api/axios.js:17 | the header value is "Bearer " followed by exactly the token |
| ApiClient.StoredToken | src/api/axios.js:15-16 | a stored value counts only when present and non-empty, and then it is the stored text |
| ApiClient.Authorize | src/api/axios.js:14-19 | with a stored token the header becomes `Bearer <token>`; without one the request's header is left as it was |
| ApiClient.ForcedLogout | src/api/axios.js:59-64 | both tokens are removed, every other storage key is kept, and the browser is sent to /login; the logs and the default header are unchanged |
| ApiClient.RetriedSendIsFinal | src/api/axios.js:32-68 | a request already marked `_retry` is sent once, and its reply is final: no refresh, no cleanup, no second attempt |
| ApiClient.SendLog | src/api/axios.js:13-69 | the first attempt goes out with the merged and intercepted header; after that there is at most one more transport call and at most one refresh call |
| ApiClient.NoTokenNoHeader | src/api/axios.js:15-18 | with no stored access token and no default header, a fresh request is sent without Authorization |
| ApiClient.TokenAttached | src/api/axios.js:15-18 | with stored token T, the first attempt carries exactly "Bearer " + T |
| ApiClient.RetriedRequestNotRefreshedAgain | src/api/axios.js:32-68 | a 401 on a request already marked `_retry` is rejected unchanged, so each original request gets at most one refresh |
| ApiClient.SuccessPassesThrough | src/api/axios.js:26 | a successful reply is returned unchanged; storage, location and the default header do not move |
| ApiClient.OtherErrorsPassThrough | src/api/axios.js:32-68 | an error other than 401, including one with no response, is rejected unchanged, with no refresh call and storage untouched |
| ApiClient.MissingRefreshTokenForcesLogout | src/api/axios.js:39-65 | a 401 with no refresh token makes no refresh call, removes both tokens, redirects to /login and rejects |
| ApiClient.FailedRefreshForcesLogout | src/api/axios.js:46-65 | a failed refresh makes exactly one refresh call with `{refresh}` set to the stored token, then removes both tokens, redirects and rejects with the refresh error |
| ApiClient.SuccessfulRefreshRetriesOnce | src/api/axios.js:52-58 | a refresh returning A2 stores A2, sets the default header and the request's header to "Bearer A2", keeps the refresh token, and re-issues the request exactly once; a failure of that re-issued request is passed on with no cleanup |
| ApiClient.LaterRequestsCarryNewToken | src/api/axios.js:15-55 | after a refresh to A2, a later fresh request carries "Bearer A2" |
| ApiClient.DefaultHeaderOutlivesPurge | src/api/axios.js:16-55 | once a refresh has set the default header, a fresh request sent after both tokens are removed from storage still carries the old "Bearer A2" |
| ApiClient.RefreshScenario | src/api/axios.js:13-69 | worked example: a 401 on tokens A1/R1, a refresh to A2, and a successful re-issue give the caller the retried answer, with A2 and R1 left in storage |
| ApiClient.RequestConfig.constructor | src/api/axios.js:29 | a new request config has its path, no header and no `_retry` mark |
| ApiClient.Client.constructor | src/api/axios.js:5-10 | a new instance has the given storage, no redirect, no default header and empty logs |
| ApiClient.Client.InterceptRequest | src/api/axios.js:13-22 | the request interceptor changes the config's header in place to `Authorize` of it |
| ApiClient.Client.ForceLogout | src/api/axios.js:59-64 | the state in place becomes `ForcedLogout` of the old state |
| ApiClient.Client.Dispatch | src/api/axios.js:13-69 | the in-place sequence of steps ends in the state, config and outcome that `Send` gives |
| ApiClient.Client.InterceptResponseError | src/api/axios.js:28-69 | the in-place error handler ends in the state, config and outcome that `OnError` gives |
| ApiClient.Merged | src/api/axios.js:13-55 | the request's own Authorization header wins over the instance default; there is none only when both are missing |
| ApiClient.Send | src/api/axios.js:13-69 | at least one transmission; it resolves only with a 2xx reply, and with that reply when the attempt gets one; a rejection passing a reply through carries a non-2xx one; a request marked `_retry` ends resolved or with the HTTP error |
| ApiClient.OnError | src/api/axios.js:28-69 | anything but a first 401 is passed through unchanged; a resolution carries a 2xx reply; a failure other than the HTTP error leaves the browser at /login with both tokens removed |
| AuthSlice.FirstEntry | src/features/authentication/auth/authSlice.js:19-20 | `e[Object.keys(e)[0]]`: an object's first entry in key order, a string's first character, an array's first element, and undefined for values with no keys |
| AuthSlice.Index0 | src/features/authentication/auth/authSlice.js:20 | `v[0]` throws (None) exactly on null or undefined; otherwise it reads index 0 as `?.[0]` does: the first element of an array, the first character of a string, the property "0" of an object |
| AuthSlice.RegisterRejection | src/features/authentication/auth/authSlice.js:14-31 | with a truthy body `error`: undefined (the catch block throws) exactly when its first entry is undefined or null; otherwise `{message, fields}` where message is index 0 of the first entry, else the body's message, else "Registration failed.", and fields is the whole `error`; without one, `{message}` from the body's message or "Something went wrong. Please try again." |
| AuthSlice.RegisterFieldErrors | src/features/authentication/auth/authSlice.js:18-25 | the backend's usual `{error: {field: [msg, ...]}}` body gives the first field's first message and all the field errors |
| AuthSlice.StringErrorGivesFirstCharacter | src/features/authentication/auth/authSlice.js:18-20 | when the body's `error` is a non-empty string, the message is only its first character |
| AuthSlice.EmptyErrorObjectThrows | src/features/authentication/auth/authSlice.js:19-20 | when `error` is an empty object, reading `[0]` of undefined throws, so the rejection has no payload |
| AuthSlice.RegisterRejectionIntended | src/features/authentication/auth/authSlice.js:18-31 | the corrected rejection always carries a truthy message: a string `error` is the whole message, and every case where the code as written does not throw and `error` is not a string agrees with it |
| AuthSlice.VerifyOtpRejection | src/features/authentication/auth/authSlice.js:49-63 | with a body, `{message}` from index 0 of `non_field_errors` (an array's first element, a string's first character) or "Verification failed."; without one, "Network error. Please try again." |
| AuthSlice.ResendOtpRejection | src/features/authentication/auth/authSlice.js:78-81 | the body itself when there is one, else `{detail: "Network error. Please try again."}` |
| AuthSlice.LoginRejection | src/features/authentication/auth/authSlice.js:97-103 | `{message}` from the first truthy of index 0 of `non_field_errors`, `detail` and `message`, else "Invalid email or password." |
| AuthSlice.LoginWithoutAnswer | src/features/authentication/auth/authSlice.js:97-103 | a login that got no answer rejects with the fixed text |
| AuthSlice.AuthStore.constructor | src/features/authentication/auth/authSlice.js:112-119 | the initial state: no user, not loading, no error, no success, not verified, no OTP message |
| AuthSlice.AuthStore.ResetAuthState | src/features/authentication/auth/authSlice.js:121-127 | the flags and OTP fields are cleared, the user and storage are kept |
| AuthSlice.AuthStore.Logout | src/features/authentication/auth/authSlice.js:129-141 | the whole state is reset, and exactly the accessToken, refreshToken, user and email keys are removed from storage |
| AuthSlice.AuthStore.Pending | src/features/authentication/auth/authSlice.js:146-180 | loading becomes true and error null; nothing else changes |
| AuthSlice.AuthStore.LoginPending | src/features/authentication/auth/authSlice.js:191-195 | loading becomes true, error null and success false |
| AuthSlice.AuthStore.Rejected | src/features/authentication/auth/authSlice.js:155-189 | loading becomes false and error becomes the payload |
| AuthSlice.AuthStore.LoginRejected | src/features/authentication/auth/authSlice.js:206-210 | loading becomes false, error the payload, success false |
| AuthSlice.AuthStore.RegisterFulfilled | src/features/authentication/auth/authSlice.js:150-154 | loading becomes false, user the payload, success true |
| AuthSlice.AuthStore.VerifyFulfilled | src/features/authentication/auth/authSlice.js:165-170 | a null or undefined payload throws and changes nothing; otherwise otpVerified becomes true and the OTP message is the payload's message or the default text, so it is always truthy |
| AuthSlice.AuthStore.ResendFulfilled | src/features/authentication/auth/authSlice.js:181-185 | a null or undefined payload throws and changes nothing; otherwise the OTP message is the payload's message or the default text |
| AuthSlice.AuthStore.LoginFulfilled | src/features/authentication/auth/authSlice.js:196-205 | the user becomes payload.user and success true; storage gains the access token, the refresh token and the serialised user |
| AuthSlice.StringNonFieldErrorsGiveFirstCharacter | src/features/authentication/auth/authSlice.js:49-103 | a string `non_field_errors` yields only its first character as the message, in OTP verification and in login alike |
| BookingSlice.NearbyRejection | src/features/booking/bookingSlice.js:11-17 | the body's `message` when truthy, else "Failed to fetch employee nearby list"; always truthy |
| BookingSlice.CreateBookingError | src/features/booking/bookingSlice.js:30-36 | `{error: m}` where m is the first truthy of index 0 of `booking_date` (a string's first character), the body's `error`, and "Failed to create booking" |
| BookingSlice.FetchBookingsError | src/features/booking/bookingSlice.js:50-69 | the body's `error`, else "Failed to fetch bookings" |
| BookingSlice.UpdateStatusError | src/features/booking/bookingSlice.js:85-88 | the whole error body, else `{error: "Something went wrong"}` |
| BookingSlice.WithStatus | src/features/booking/bookingSlice.js:115-120 | same length and order; each booking with the given `book_id` gets the new status and keeps every other property; the others are unchanged |
| BookingSlice.MergeById | src/features/booking/bookingSlice.js:199-202 | same length and order; a booking with the payload's `book_id` takes every payload property and keeps the rest; the others are unchanged |
| BookingSlice.ServerAnswerSupersedesOptimistic | src/features/booking/bookingSlice.js:115-203 | merging a server answer that carries a status into the optimistically updated list gives the same list as merging it into the list before the optimistic change |
| BookingSlice.WithStatusIsIdempotent | src/features/booking/bookingSlice.js:115-120 | setting the same status twice is the same as setting it once |
| BookingSlice.BookingStore.constructor | src/features/booking/bookingSlice.js:97-104 | the initial state: no employee list, no booking, no bookings, and all flags cleared |
| BookingSlice.BookingStore.ResetBookingState | src/features/booking/bookingSlice.js:107-112 | booking and error become null, success and loading false; employeeList and userBookings are untouched |
| BookingSlice.BookingStore.OptimisticUpdateBookingStatus | src/features/booking/bookingSlice.js:115-120 | only userBookings changes, to `WithStatus` of it |
| BookingSlice.BookingStore.NearbyPending | src/features/booking/bookingSlice.js:130-133 | loading becomes true and error null |
| BookingSlice.BookingStore.NearbyFulfilled | src/features/booking/bookingSlice.js:134-138 | the employee list becomes the payload; loading false, success true |
| BookingSlice.BookingStore.NearbyRejected | src/features/booking/bookingSlice.js:139-143 | loading becomes false, error the payload, success false |
| BookingSlice.BookingStore.CreatePending | src/features/booking/bookingSlice.js:146-151 | loading becomes true, and error, success and booking are cleared |
| BookingSlice.BookingStore.CreateFulfilled | src/features/booking/bookingSlice.js:152-156 | booking becomes the payload; loading false, success true |
| BookingSlice.BookingStore.CreateRejected | src/features/booking/bookingSlice.js:157-161 | loading becomes false, error the payload, success false |
| BookingSlice.BookingStore.FetchBookingsPending | src/features/booking/bookingSlice.js:164-181 | loading becomes true and error null |
| BookingSlice.BookingStore.FetchBookingsFulfilled | src/features/booking/bookingSlice.js:168-185 | userBookings is replaced wholesale by the payload, and loading becomes false |
| BookingSlice.BookingStore.FetchBookingsRejected | src/features/booking/bookingSlice.js:172-189 | loading becomes false and error the payload; success is left alone |
| BookingSlice.BookingStore.UpdateStatusPending | src/features/booking/bookingSlice.js:192-194 | only loading changes, to true; error and userBookings are untouched |
| BookingSlice.BookingStore.UpdateStatusFulfilled | src/features/booking/bookingSlice.js:195-203 | loading becomes false, success true, and userBookings becomes `MergeById` of it with the payload |
| BookingSlice.BookingStore.UpdateStatusRejected | src/features/booking/bookingSlice.js:215-219 | loading becomes false, error the payload, success false |
| BookingSlice.CreateFailureWithoutBody | src/features/booking/bookingSlice.js:31-36 | a creation that got no answer rejects with `{error: "Failed to create booking"}` |
| BookingSlice.StringDateErrorGivesFirstCharacter | src/features/booking/bookingSlice.js:30-36 | a string `booking_date` error yields only its first character |
| ProfileSlice.FetchPostsRejectionAsWritten | src/features/dashboard/profileSlice.js:65-71 | with a server answer, its `message` or the fallback text; without one, no payload at all, because the logging line throws first |
| ProfileSlice.FetchPostsRejection | src/features/dashboard/profileSlice.js:65-71 | always a truthy message: the server's `message` when it has one, the fallback text otherwise, also when no answer came |
| ProfileSlice.FetchPostsNetworkFailureLosesMessage | src/features/dashboard/profileSlice.js:65-71 | without an answer the written catch block rejects with a falsy payload where a message was meant; with an answer the two agree |
| ProfileSlice.WithComment | src/features/dashboard/profileSlice.js:202-211 | the post's list gains the comment at its end, created when missing; every other post's list is untouched |
| ProfileSlice.ProfileStore.constructor | src/features/dashboard/profileSlice.js:113-120 | no profile, no posts, no comments, and the flags cleared |
| ProfileSlice.ProfileStore.ResetProfileState | src/features/dashboard/profileSlice.js:122-126 | loading, error and success are cleared; profile, posts and comments stay |
| ProfileSlice.ProfileStore.Pending | src/features/dashboard/profileSlice.js:131-200 | every pending case sets only `loading` |
| ProfileSlice.ProfileStore.Rejected | src/features/dashboard/profileSlice.js:12-214 | every other rejected case lowers `loading` and stores the thunk's rejection, nothing else: the server's message, or that thunk's own fixed text, so the error is always truthy |
| ProfileSlice.ProfileStore.FetchPostsRejected | src/features/dashboard/profileSlice.js:170-182 | loading stops and the error is `FetchPostsRejectionAsWritten` of the failure: truthy exactly when the server answered |
| ProfileSlice.ProfileStore.FetchProfileFulfilled | src/features/dashboard/profileSlice.js:134-137 | the profile becomes the payload and loading is lowered |
| ProfileSlice.ProfileStore.UpdateProfileFulfilled | src/features/dashboard/profileSlice.js:147-151 | the profile becomes the payload, success is set and loading lowered |
| ProfileSlice.ProfileStore.CreatePostFulfilled | src/features/dashboard/profileSlice.js:161-165 | the new post goes first and every earlier post follows in order; success is set |
| ProfileSlice.ProfileStore.FetchPostsFulfilled | src/features/dashboard/profileSlice.js:175-178 | the posts are replaced wholesale |
| ProfileSlice.ProfileStore.FetchCommentsFulfilled | src/features/dashboard/profileSlice.js:188-192 | only that post's comment list is replaced |
| ProfileSlice.ProfileStore.AddCommentFulfilled | src/features/dashboard/profileSlice.js:202-211 | the comment map becomes `WithComment` of it; loading is lowered |
| UserProfileSlice.UserProfileStore.constructor | src/features/dashboard/userprofileSlice.js:62-68 | no profile and the flags cleared |
| UserProfileSlice.UserProfileStore.ResetProfileState | src/features/dashboard/userprofileSlice.js:70-74 | the flags are cleared and the profile kept |
| UserProfileSlice.UserProfileStore.FetchPending | src/features/dashboard/userprofileSlice.js:79-81 | only `loading` is set; an earlier error stays |
| UserProfileSlice.UserProfileStore.FetchByIdPending | src/features/dashboard/userprofileSlice.js:108-111 | loading is set and the earlier error cleared |
| UserProfileSlice.UserProfileStore.UpdatePending | src/features/dashboard/userprofileSlice.js:92-95 | loading is set and success cleared |
| UserProfileSlice.UserProfileStore.FetchFulfilled | src/features/dashboard/userprofileSlice.js:82-85 | the profile becomes the payload and loading is lowered |
| UserProfileSlice.UserProfileStore.UpdateFulfilled | src/features/dashboard/userprofileSlice.js:96-100 | the profile becomes the payload, success is set and loading lowered |
| UserProfileSlice.UserProfileStore.FetchRejected | src/features/dashboard/userprofileSlice.js:12-118 | loading is lowered and the error is the server's message, or the fixed text of the thunk that failed (fetchUserProfile or fetchEmployeeByIDProfile); always truthy |
| UserProfileSlice.UserProfileStore.UpdateRejected | src/features/dashboard/userprofileSlice.js:30-105 | loading is lowered, success cleared, and the error is the server's message or "Failed to update profile." |
| UserProfileSlice.UserProfileStore.Update | src/features/dashboard/userprofileSlice.js:21-105 | after a whole update loading is false; success holds exactly when it was fulfilled, which replaces the profile; a failure keeps the profile and stores a truthy message |
| PostSlice.FirstWithId | src/features/posts/postSlice.js:117 | the position of the first post with the id, or none when no post has it |
| PostSlice.Toggled | src/features/posts/postSlice.js:118-126 | "Post liked" marks the post liked and applies `+= 1` (`PlusOne`) to its count, any other message unmarks it and applies `-= 1` (`MinusOne`); every other property is kept |
| PostSlice.Liked | src/features/posts/postSlice.js:116-127 | the feed keeps its length; only the first post with the id changes, by `Toggled`; with no such post nothing changes |
| PostSlice.LikeThenUnlikeRestores | src/features/posts/postSlice.js:116-127 | liking an unliked post and then unliking it gives back the original feed |
| PostSlice.FirstWithIdStable | src/features/posts/postSlice.js:117 | updating the found post in place keeps it the first with that id |
| PostSlice.WithoutId | src/features/posts/postSlice.js:142-144 | no kept comment has the id, every comment without it is kept, and nothing is added |
| PostSlice.WithoutIdDistributes | src/features/posts/postSlice.js:142-144 | the filter keeps relative order: it distributes over concatenation |
| PostSlice.WithoutAbsentId | src/features/posts/postSlice.js:142-144 | a list without that id is left exactly as it was |
| PostSlice.WithoutComment | src/features/posts/postSlice.js:140-146 | the same posts keep lists, each filtered by `WithoutId` |
| PostSlice.FeedStore.constructor | src/features/posts/postSlice.js:87-94 | no posts, page 1 of 1, no comments, no error, not loading |
| PostSlice.FeedStore.FetchAllPending | src/features/posts/postSlice.js:101-103 | only `loading` is set |
| PostSlice.FeedStore.FetchAllFulfilled | src/features/posts/postSlice.js:104-109 | the page's posts and counters replace the old ones; loading is lowered |
| PostSlice.FeedStore.FetchAllRejected | src/features/posts/postSlice.js:110-113 | loading is lowered and the error stored; the posts on screen stay |
| PostSlice.FeedStore.LikeFulfilled | src/features/posts/postSlice.js:116-127 | the feed becomes `Liked` of it; nothing else changes |
| PostSlice.FeedStore.FetchCommentsFulfilled | src/features/posts/postSlice.js:130-132 | only that post's comment list is replaced |
| PostSlice.FeedStore.AddCommentFulfilled | src/features/posts/postSlice.js:135-137 | the new comment goes first in the post's list when one is loaded; with none the reducer throws and the store is unchanged |
| PostSlice.FeedStore.DeleteCommentFulfilled | src/features/posts/postSlice.js:140-146 | the comment map becomes `WithoutComment` of it; nothing else changes |
| PostSlice.DeletedCommentIsGone | src/features/posts/postSlice.js:140-146 | after a deletion no list holds a comment with that id, and a list that never held it is unchanged |
| PostSlice.PlusOne | src/features/posts/postSlice.js:121-124 | `count += 1`: a number, null or boolean is added to as a number; a string, array or object gets "1" appended to its text; undefined gives a falsy NaN |
| PostSlice.NumberOf | src/features/posts/postSlice.js:121-124 | `Number(count)`, an array converted through its text |
| PostSlice.MinusOne | src/features/posts/postSlice.js:121-124 | `count -= 1`: one less than `Number(count)`, or a falsy NaN when that is not a number |
| PostSlice.MinusOneUndoesPlusOne | src/features/posts/postSlice.js:118-126 | on a numeric count an unlike undoes a like |
| PostSlice.TextCountDoesNotRestore | src/features/posts/postSlice.js:118-126 | on a count sent as digits a like appends "1" and the following unlike gives ten times the count, not the count |
| PostSlice.AppendOne | src/features/posts/postSlice.js:121-124 | appending "1" to a digit string spells ten times its number plus one |
| PostSlice.MinusOneOfDigits | src/features/posts/postSlice.js:121-124 | `-= 1` on a digit string counts down from the number it spells |
| ProfileSlice.Fallback | src/features/dashboard/profileSlice.js:12-104 | each thunk's own non-empty fixed text |
| ProfileSlice.Rejection | src/features/dashboard/profileSlice.js:12-104 | what the catch blocks pass to `rejectWithValue`: the server's message when truthy, else the thunk's fixed text; always truthy |
| UserProfileSlice.FetchRejection | src/features/dashboard/userprofileSlice.js:12-53 | the server's message when truthy, else "Faild to fetch  userprofile" or "Failed to fetch user by ID." by thunk; always truthy |
| RegisterPage.InitialForm | src/pages/RegisterPage.jsx:13-20 | the empty form: the six fields full_name, email, phone, password, confirm_password and location, each "" |
| RegisterPage.ClearError | src/pages/RegisterPage.jsx:30-33 | the edited field's error becomes ""; every other error of an object is kept, and no key is lost |
| RegisterPage.Body | src/pages/RegisterPage.jsx:52-57 | every form field is sent, plus latitude, longitude and role; those three take the picked point and the chosen type even when the form holds a key of the same name |
| RegisterPage.Submit | src/pages/RegisterPage.jsx:39-61 | a missing phone stops it first, then a missing location, then unaccepted terms; exactly when all three hold, the body is sent |
| RegisterPage.StorageAfter | src/pages/RegisterPage.jsx:59 | storage changes only when the body is sent, and then only under "email" |
| RegisterPage.StoredEmailIsTyped | src/pages/RegisterPage.jsx:57-59 | the email stored for the verification page is exactly the one typed |
| RegisterPage.RoleCannotBeTyped | src/pages/RegisterPage.jsx:57 | whatever the form holds under "role", the role sent is the chosen user type |
| RegisterPage.OnAuthChange | src/pages/RegisterPage.jsx:65-81 | success goes to /otpverify; otherwise a truthy error shows the error's message, or "Registration failed." when it has none, and replaces the field errors with the server's `fields`, or with `{}` when it names none; no error does nothing |
| RegisterPage.RegisterForm.constructor | src/pages/RegisterPage.jsx:13-27 | the empty form, no location, terms not accepted, user type "client", no field errors |
| RegisterPage.RegisterForm.HandleChange | src/pages/RegisterPage.jsx:30-33 | the field takes the typed text and its error is cleared; nothing else changes |
| RegisterPage.RegisterForm.SelectLocation | src/pages/RegisterPage.jsx:22 | the picked point is stored; nothing else changes |
| RegisterPage.RegisterForm.SetTermsAccepted | src/pages/RegisterPage.jsx:25 | only the terms flag changes |
| RegisterPage.RegisterForm.SetUserType | src/pages/RegisterPage.jsx:26 | only the user type changes |
| RegisterPage.RegisterForm.HandleSubmit | src/pages/RegisterPage.jsx:36-62 | the outcome is `Submit` of the page state and the storage is `StorageAfter` of it |
| RegisterPage.RegisterForm.ReactToAuth | src/pages/RegisterPage.jsx:65-81 | the reaction is `OnAuthChange`; the field errors change only when an error is shown, to the ones it carries |
| RegisterPage.TypingClearsOnlyThatError | src/pages/RegisterPage.jsx:30-80 | after the server named errors, typing into one field clears that error and keeps the others |
| OtpVerifyPage.Entered | src/pages/OtpVerifyPage.jsx:32-40 | text that is not a number leaves the boxes as they were; otherwise only the box at the index takes it, and the count of boxes stays the same |
| OtpVerifyPage.TicksStopAtZero | src/pages/OtpVerifyPage.jsx:20-25 | n ticks from a non-negative countdown take off n seconds and never go below zero |
| OtpVerifyPage.JoinedLength | src/pages/OtpVerifyPage.jsx:57 | the joined code is as long as the boxes' contents together |
| OtpVerifyPage.FullWhenNoneEmpty | src/pages/OtpVerifyPage.jsx:57 | with at most one character per box, the total length is at most the number of boxes, and reaches it exactly when no box is empty |
| OtpVerifyPage.CompleteIffAllFilled | src/pages/OtpVerifyPage.jsx:57 | with one-character boxes, the code passes the six-character check exactly when all six boxes are filled |
| OtpVerifyPage.Submit | src/pages/OtpVerifyPage.jsx:48-68 | no stored email goes to /register; with an email, a code that is not six characters long sends nothing; otherwise the stored email and the six-character joined code are sent |
| OtpVerifyPage.StorageAfterSubmit | src/pages/OtpVerifyPage.jsx:61-62 | the email is removed after a fulfilled verification and only then; nothing else in storage changes |
| OtpVerifyPage.VerifiedEmailIsGone | src/pages/OtpVerifyPage.jsx:52-62 | after a verified code, any further submit finds no email and goes to /register |
| OtpVerifyPage.Resend | src/pages/OtpVerifyPage.jsx:70-78 | no stored email sends nothing; otherwise the resend is reported as done exactly when it was fulfilled |
| OtpVerifyPage.OtpPage.constructor | src/pages/OtpVerifyPage.jsx:9-10 | six empty boxes and a 30-second countdown |
| OtpVerifyPage.OtpPage.HandleChange | src/pages/OtpVerifyPage.jsx:32-40 | the boxes become `Entered` of the old boxes; the countdown is untouched |
| OtpVerifyPage.OtpPage.OnTick | src/pages/OtpVerifyPage.jsx:20-25 | the countdown goes down by one while positive and then stays; the boxes are untouched |
| OtpVerifyPage.OtpPage.HandleSubmit | src/pages/OtpVerifyPage.jsx:48-68 | the outcome is `Submit` of the boxes and the storage is `StorageAfterSubmit` of it |
| OtpVerifyPage.OtpPage.HandleResend | src/pages/OtpVerifyPage.jsx:70-78 | the outcome is `Resend`; the countdown restarts at 60 exactly when the resend went through |
| LoginPage.Submit | src/pages/LoginPage.jsx:40-47 | an empty email or password sends nothing; otherwise exactly the two typed values are sent |
| LoginPage.RedirectAfterLogin | src/pages/LoginPage.jsx:23-30 | the client dashboard exactly for role "client", the employee dashboard for any other user, and no navigation when the user is missing |
| LoginPage.OnAuthChange | src/pages/LoginPage.jsx:20-37 | the redirect is scheduled exactly on success and goes where `RedirectAfterLogin` says; an error toast appears exactly when the error carries a truthy message, which it shows; both can fire |
| LoginPage.RolesLandApart | src/pages/LoginPage.jsx:23-30 | a client and a user of any other role land on different dashboards |
| LoginPage.LoginForm.constructor | src/pages/LoginPage.jsx:13-14 | both fields start empty |
| LoginPage.LoginForm.SetEmail | src/pages/LoginPage.jsx:13 | only the email changes |
| LoginPage.LoginForm.SetPassword | src/pages/LoginPage.jsx:14 | only the password changes |
| LoginPage.LoginForm.HandleSubmit | src/pages/LoginPage.jsx:40-47 | the outcome is `Submit` of the two fields |
| BookingForm.InitialForm | src/features/booking/BookingForm.jsx:15-19 | the form has exactly the date, the job and the employee id of the route; the first two are "" |
| BookingForm.Finish | src/features/booking/BookingForm.jsx:37-47 | a created booking goes to the dashboard; a failure shows the error's truthy `error`, or the page's default text |
| BookingForm.SliceMessageIsShown | src/features/booking/BookingForm.jsx:44 | a rejection from the booking slice always shows the slice's own message, never the page default |
| BookingForm.BookingFormPage.constructor | src/features/booking/BookingForm.jsx:15-21 | the initial form for the route's employee, not loading |
| BookingForm.BookingFormPage.HandleChange | src/features/booking/BookingForm.jsx:23-26 | the named field takes the value; the loading flag is untouched |
| BookingForm.BookingFormPage.BeginSubmit | src/features/booking/BookingForm.jsx:28-37 | the whole form is sent exactly when date and job are filled, and then the loading flag is raised; otherwise nothing changes |
| BookingForm.BookingFormPage.FinishSubmit | src/features/booking/BookingForm.jsx:38-47 | the result is `Finish` of the answer and the loading flag is lowered on either outcome |
| CreatePost.WithInput | src/features/dashboard/employee/CreatePost.jsx:20-23 | the named field takes the text; any other name leaves the three fields alone |
| CreatePost.PostBody | src/features/dashboard/employee/CreatePost.jsx:51-56 | the parts are title, description and post, in that order |
| CreatePost.Submit | src/features/dashboard/employee/CreatePost.jsx:36-57 | a missing title stops it first, then a missing description, then a missing file; exactly when all three are present, the body is sent |
| CreatePost.EmptyFormStopsAtTitle | src/features/dashboard/employee/CreatePost.jsx:38-41 | a form with an empty title is stopped at the title check, whatever its description and file |
| CreatePost.OnStoreChange | src/features/dashboard/employee/CreatePost.jsx:60-71 | an error toast exactly for a truthy error, a cleared form exactly on success, and one store reset for each |
| CreatePost.ResetStoreIsQuiet | src/features/dashboard/employee/CreatePost.jsx:60-71 | the store after the reset makes the effect do nothing: no second toast and no second reset |
| CreatePost.PostComposer.constructor | src/features/dashboard/employee/CreatePost.jsx:12-17 | the empty form and no preview |
| CreatePost.PostComposer.HandleInputChange | src/features/dashboard/employee/CreatePost.jsx:20-23 | the form becomes `WithInput` of it; the preview is untouched |
| CreatePost.PostComposer.HandleFileChange | src/features/dashboard/employee/CreatePost.jsx:26-32 | a picked file is kept and previewed; no file changes nothing |
| CreatePost.PostComposer.HandleSubmit | src/features/dashboard/employee/CreatePost.jsx:36-57 | the body built part by part is the one `Submit` decides |
| CreatePost.PostComposer.ReactToStore | src/features/dashboard/employee/CreatePost.jsx:60-71 | the reaction is `OnStoreChange`; on success the form and the preview are emptied, otherwise they stay |
| Home.NextIndex | src/features/home/Home.jsx:26-33 | from a valid image the next index is valid and one further, the last wrapping to the first |
| Home.TicksCycle | src/features/home/Home.jsx:26-33 | after n ticks from image i the carousel shows image (i + n) mod 5 |
| Home.BotMessage | src/features/home/Home.jsx:56-66 | the bot always says something; the reply when the body has a truthy one, the fallback when it has none, and the error text when the call failed |
| Home.ChatBox.constructor | src/features/home/Home.jsx:16-22 | the first image, chat closed, empty input, and the greeting as the only message |
| Home.ChatBox.Tick | src/features/home/Home.jsx:26-33 | the index moves by `NextIndex`; nothing else changes |
| Home.ChatBox.ToggleChat | src/features/home/Home.jsx:39-41 | only the open flag flips |
| Home.ChatBox.SetInput | src/features/home/Home.jsx:18-22 | only the input text changes |
| Home.ChatBox.BeginSend | src/features/home/Home.jsx:43-55 | blank input sends nothing and changes nothing; otherwise the message as typed is appended and sent, and the input is cleared |
| Home.ChatBox.FinishSend | src/features/home/Home.jsx:56-67 | exactly one bot message, `BotMessage` of the answer, is appended |
| Home.ExchangeAddsTwo | src/features/home/Home.jsx:43-67 | a full exchange keeps the history and adds the visitor's message and then the bot's |
| Navbar.Route | src/layouts/navbar/Navbar.jsx:16-33 | the feed item goes to /posts, Login to /login, "home" in any case to /, and any other item to "/" and its lower-cased name |
| Navbar.RouteIsAbsolute | src/layouts/navbar/Navbar.jsx:20-32 | every route starts with "/" |
| Navbar.RouteIgnoresCase | src/layouts/navbar/Navbar.jsx:30 | items that differ only in letter case lead to the same page |
| NavbarPages.Items | src/pages/NavbarPages.jsx:10-11 | the three common items, with Login after them exactly when no token is stored |
| NavbarPages.ItemRoutes | src/pages/NavbarPages.jsx:11 | Home, About, Professional Feed and Login lead to /, /about, /posts and /login |
| NavbarPages.ItemsRouteApart | src/pages/NavbarPages.jsx:11 | no two items shown lead to the same page |
| NavbarPages.NavState.constructor | src/pages/NavbarPages.jsx:6-7 | Home is active and the menu is closed |
| NavbarPages.NavState.ToggleMenu | src/pages/NavbarPages.jsx:13-15 | only the menu flag flips |
| NavbarPages.NavState.Click | src/layouts/navbar/Navbar.jsx:16-100 | the clicked item becomes active and its route is followed; a click in the mobile menu also closes it |
| ProtectedRoute.Decide | src/routes/ProtectedRoute.jsx:4-17 | no or a falsy stored user goes to /login; a route with a list goes home exactly when the user's role is not listed; otherwise the page is shown |
| ProtectedRoute.MoreRolesAdmitMore | src/routes/ProtectedRoute.jsx:12-14 | adding roles to a route's list never locks out a user it admitted |
| ProtectedRoute.RolelessUserOnlyOnOpenRoutes | src/routes/ProtectedRoute.jsx:12-16 | a user without a role is sent home from every listed route and admitted to an open one |
| HeaderText.UserData | src/features/home/HeaderText.jsx:8 | the stored user, or `{}` when none is stored |
| HeaderText.PrimaryTarget | src/features/home/HeaderText.jsx:35-48 | without a token the link is login; with one, the client dashboard when the role loosely equals "client", the employee dashboard otherwise, and a throw for a stored `null` |
| HeaderText.ShowsBooking | src/features/home/HeaderText.jsx:53-73 | the booking button is shown exactly when the role strictly equals "client" |
| HeaderText.NoUserNoBooking | src/features/home/HeaderText.jsx:8-54 | with no stored user the page renders with no booking button, its primary link being login without a token and the employee dashboard with one |
| HeaderText.StringRolesAgree | src/features/home/HeaderText.jsx:41-54 | for a string role the loose and the strict check agree |
| HeaderText.ArrayRoleSplitsTheChecks | src/features/home/HeaderText.jsx:41-54 | a role stored as `["client"]` opens the client dashboard but shows no booking button |
| UserProfile.ImageUrlAsWritten | src/features/dashboard/user/UserProfile.jsx:65-67 | a truthy picture is shown behind the server address; a missing one as the placeholder |
| UserProfile.FullUrlGetsPrefixedTwice | src/features/dashboard/user/UserProfile.jsx:65-67 | a picture the server already gives as a full URL is shown with the server address twice |
| UserProfile.ImageUrl | src/features/dashboard/user/UserProfile.jsx:65-67 | a full URL is shown as is, a relative path behind the server address, and a missing picture as the placeholder |
| UserProfile.ImageUrlFixesOnlyFullUrls | src/features/dashboard/user/UserProfile.jsx:65-67 | the corrected URL agrees with the page on every relative path |
| UserProfile.FullUrlShownOnce | src/features/dashboard/user/UserProfile.jsx:65-67 | a full URL is shown with the server address once |
| UserProfile.LoadedForm | src/features/dashboard/user/UserProfile.jsx:59-68 | name, phone, location and both coordinates are the profile's value or ""; the picture is resolved as the page writes it (`ImageUrlAsWritten`) |
| UserProfile.WithInput | src/features/dashboard/user/UserProfile.jsx:73-75 | the named field takes the text; any other name leaves the form alone |
| UserProfile.SaveBody | src/features/dashboard/user/UserProfile.jsx:91-101 | five parts, with the marker's latitude and longitude fourth and fifth, and the picked file sixth only when one was picked |
| UserProfile.SaveIgnoresFormCoordinates | src/features/dashboard/user/UserProfile.jsx:93-97 | what is sent does not depend on the form's coordinate fields or picture preview |
| UserProfile.LoadThenSaveSendsProfileBack | src/features/dashboard/user/UserProfile.jsx:54-101 | saving a just-loaded profile sends its name, phone and location and its coordinates back unchanged |
| UserProfile.UserProfileEditor.constructor | src/features/dashboard/user/UserProfile.jsx:37-48 | no marker, no picked file, and the empty form |
| UserProfile.UserProfileEditor.LoadProfile | src/features/dashboard/user/UserProfile.jsx:54-70 | a falsy profile changes nothing; otherwise the marker takes its coordinates, the form is `LoadedForm` of it and the picked file stays |
| UserProfile.UserProfileEditor.HandleChange | src/features/dashboard/user/UserProfile.jsx:73-75 | the form becomes `WithInput` of it; nothing else changes |
| UserProfile.UserProfileEditor.HandleImageChange | src/features/dashboard/user/UserProfile.jsx:78-88 | a picked file is kept and previewed; no file changes nothing |
| UserProfile.UserProfileEditor.PickLocation | src/features/dashboard/user/UserProfile.jsx:23-31 | the marker moves to the clicked point; nothing else changes |
| UserProfile.UserProfileEditor.HandleSave | src/features/dashboard/user/UserProfile.jsx:91-101 | the parts appended one by one are `SaveBody` of the page state |
| UserProfile.FormWaitsForCoordinates | src/features/dashboard/user/UserProfile.jsx:114 | a fresh page, with no marker, shows "Loading..."; once a profile is loaded the form shows exactly when the profile has both a truthy latitude and a truthy longitude |
| OtpVerifyPage.IsNaN | src/pages/OtpVerifyPage.jsx:33 | an empty box and a digit string are numbers; a single letter, sign or point is not |
| OtpVerifyPage.Tick | src/pages/OtpVerifyPage.jsx:20-25 | never goes up, stays non-negative from a non-negative start, and moves exactly while positive |
| OtpVerifyPage.Ticks | src/pages/OtpVerifyPage.jsx:20-25 | never goes up, stays non-negative from a non-negative start, and stays put exactly when there are no ticks or the countdown is not positive |
| HeaderText.LooseEqualsString | src/features/home/HeaderText.jsx:41 | undefined and null never equal a string; a string compares as text, a number against the digits' value, a one-string array as that string |
| HeaderText.Render | src/features/home/HeaderText.jsx:35-73 | no page exactly when the stored user is `null`, token or not; otherwise the primary link and the booking button as computed |
| Home.AfterTicks | src/features/home/Home.jsx:26-33 | from a valid image every number of ticks stays on a valid image; no ticks stays put |
| BookingForm.Complete | src/features/booking/BookingForm.jsx:29 | a complete form has a date and a job that are present, not "" and not null; two non-empty strings are complete |
| ProtectedRoute.RoleListed | src/routes/ProtectedRoute.jsx:12 | listed exactly when the role is a string in the list; an empty list lists nobody |
| UserProfile.Loading | src/features/dashboard/user/UserProfile.jsx:114 | a missing, null, zero or empty coordinate shows "Loading..."; the form shows only with two truthy coordinates |
| UserProfile.LoadedPictureDoublesOnlyFullUrls | src/features/dashboard/user/UserProfile.jsx:59-68 | the loaded picture is the intended one for a relative path and doubles the server address for a full URL from that server |
| BookingStatic.NormalizeStatus | src/features/dashboard/employee/BookingStatic.jsx:80 | a string status lower-cased letter by letter, keeping its length; anything else becomes "" |
| BookingStatic.CountIn | src/features/dashboard/employee/BookingStatic.jsx:83-93 | at most the number of bookings, and 0 exactly when no booking's normalised status is one of those counted |
| BookingStatic.CountDisjointUnion | src/features/dashboard/employee/BookingStatic.jsx:83-93 | counting two disjoint sets of statuses separately is counting their union |
| BookingStatic.BucketsDisjoint | src/features/dashboard/employee/BookingStatic.jsx:83-93 | no status is counted in two of the pending, confirmed and canceled buckets |
| BookingStatic.BucketsFitTotal | src/features/dashboard/employee/BookingStatic.jsx:83-93 | the pending, confirmed and canceled counts together never exceed the number of bookings |
| BookingStatic.Actions | src/features/dashboard/employee/BookingStatic.jsx:216-228 | Accept and Decline are offered exactly for a pending booking, and they send "confirmed" and "canceled" |
| BookingStatic.MixedCasePendingIsOffered | src/features/dashboard/employee/BookingStatic.jsx:80 | a booking whose status is "pending" in any mix of upper and lower case gets the two buttons |
| BookingStatic.BookingRequests.constructor | src/features/dashboard/employee/BookingStatic.jsx:43 | the list on screen starts empty |
| BookingStatic.BookingRequests.SyncFromStore | src/features/dashboard/employee/BookingStatic.jsx:46-48 | the list on screen becomes the store's list when that is an array, and empty otherwise |
| BookingStatic.BookingRequests.HandleStatusChange | src/features/dashboard/employee/BookingStatic.jsx:96-123 | on success the page's and the store's lists both hold the new status with the server's reply merged in; on failure the page's list goes back to the snapshot while the store keeps its optimistic status |
| DashboardSection.CompletionModal.constructor | src/features/dashboard/employee/DashboardSection.jsx:20-22 | the modal is closed with no booking and no hours, and nothing is dispatched |
| DashboardSection.CompletionModal.HandleStatusChange | src/features/dashboard/employee/DashboardSection.jsx:30-44 | "completed" only opens the modal for the booking with the hours emptied; any other status is dispatched at once with zero hours; no completion is ever sent without hours |
| DashboardSection.CompletionModal.SetHoursInput | src/features/dashboard/employee/DashboardSection.jsx:235-236 | only the hours text changes |
| DashboardSection.CompletionModal.SubmitCompletion | src/features/dashboard/employee/DashboardSection.jsx:47-56 | with a booking and some hours the completion is dispatched with the hours as typed and the modal closed; otherwise nothing changes |
| DashboardSection.CompletionModal.CloseModal | src/features/dashboard/employee/DashboardSection.jsx:58-62 | the modal is hidden and forgets the booking and the hours; what was dispatched stays |
| DashboardSection.Earnings | src/features/dashboard/employee/DashboardSection.jsx:69 | 0 when no booking earns; a number exactly when `Number(amount)` of every earning booking is a number, NaN otherwise; its value is fixed by `EarningsOfOne`, `EarningsAppend` and `EarningsIsReduce` |
| DashboardSection.EarningsOfOne | src/features/dashboard/employee/DashboardSection.jsx:69 | one booking's earnings are its contribution: `Number(amount)` when completed with a truthy amount, else 0 |
| DashboardSection.ReduceEarnings | src/features/dashboard/employee/DashboardSection.jsx:69 | the page's `filter` then `reduce`, left to right from an accumulator; once NaN it stays NaN |
| DashboardSection.ReduceEarningsAddsEarnings | src/features/dashboard/employee/DashboardSection.jsx:69 | folding from any accumulator adds the earnings of the bookings to it |
| DashboardSection.EarningsIsReduce | src/features/dashboard/employee/DashboardSection.jsx:69 | the page's filter-and-reduce from 0 gives exactly `Earnings`, so the card shows the sum of every completed booking's amount |
| DashboardSection.AddNumbersAssociative | src/features/dashboard/employee/DashboardSection.jsx:69 | adding with NaN absorbing is associative |
| DashboardSection.EarningsAppend | src/features/dashboard/employee/DashboardSection.jsx:69 | the earnings of two lists put together are the earnings of each, added |
| DashboardSection.EarningsNonNegative | src/features/dashboard/employee/DashboardSection.jsx:69 | when every counted amount is a non-negative number, the earnings are a non-negative number |
| DashboardSection.CompletedAmountStringCounts | src/features/dashboard/employee/DashboardSection.jsx:69 | a completed booking whose amount is a digit string adds that number |
| DashboardSection.CountStatus | src/features/dashboard/employee/DashboardSection.jsx:73-74 | at most the number of bookings; 0 exactly when none has that exact status, all exactly when all have it |
| DashboardSection.DistinctStatusesFitTotal | src/features/dashboard/employee/DashboardSection.jsx:73-74 | two different statuses never count the same booking, so together they fit the total |
| DashboardSection.PendingAndActiveFitTotal | src/features/dashboard/employee/DashboardSection.jsx:73-74 | the Pending and Active cards together never exceed Total Jobs |
| DashboardSection.LowerCaseInProgressIsNotActive | src/features/dashboard/employee/DashboardSection.jsx:74 | the Active card counts only the spelling "in_Progress": bookings whose status is "in_progress" count 0 |
| DashboardSection.StatusColor | src/features/dashboard/employee/DashboardSection.jsx:78-87 | gray exactly for a status outside the five known ones; "completed" is bold green |
| DashboardSectionUser.ActiveAndCompletedFitTotal | src/features/dashboard/user/DashboardSectionUser.jsx:38-41 | no booking is both active and completed, so the two counters never exceed the total |
| DashboardSectionUser.MissingStatusNeverCounted | src/features/dashboard/user/DashboardSectionUser.jsx:40-41 | a booking without a status adds to neither counter |
| DashboardSectionUser.CapitalisedStatusIsActive | src/features/dashboard/user/DashboardSectionUser.jsx:40 | statuses are compared after lower-casing, so "confirmed" in any case is active |
| DashboardSectionUser.StatusBadge | src/features/dashboard/user/DashboardSectionUser.jsx:50-61 | always one of the six styles: the lower-cased status's own, or the pending style for a missing, empty or unknown status |
| DashboardSectionUser.RejectedLooksPending | src/features/dashboard/user/DashboardSectionUser.jsx:50-61 | a status whose lower-cased first letter starts no known status ("rejected", "done") is styled like a pending one |
| DashboardSectionUser.StatusLabel | src/features/dashboard/user/DashboardSectionUser.jsx:172 | a label exactly for a string status, of the same length, and the status itself when it has no underscore |
| DashboardSectionUser.LabelReplacesFirstUnderscoreOnly | src/features/dashboard/user/DashboardSectionUser.jsx:172 | only the first underscore becomes a space; the rest of the status is shown as it is |
| BookingStatic.StatusOf | src/features/dashboard/employee/BookingStatic.jsx:80 | the status a card is judged by is already lower case, keeps a string status's length, and is "" otherwise |
| DashboardSection.Earns | src/features/dashboard/employee/DashboardSection.jsx:69 | only completed bookings earn, and never with a missing, null, false, 0 or "" amount |
| DashboardSection.AddNumbers | src/features/dashboard/employee/DashboardSection.jsx:69 | a sum exactly when both sides are numbers (NaN absorbs); adding to 0 changes nothing |
| DashboardSection.Contribution | src/features/dashboard/employee/DashboardSection.jsx:69 | a booking that does not earn adds 0; one that does adds `Number(amount)`, a numeric amount as it is and never 0 |
| DashboardSection.PendingCount | src/features/dashboard/employee/DashboardSection.jsx:73 | at most the number of bookings, and 0 exactly when none is "pending" |
| DashboardSection.ActiveCount | src/features/dashboard/employee/DashboardSection.jsx:74 | at most the number of bookings, and 0 exactly when none is exactly "in_Progress" |
| DashboardSectionUser.ActiveCount | src/features/dashboard/user/DashboardSectionUser.jsx:40 | at most the number of bookings, and 0 exactly when no lower-cased status is pending, confirmed or in_progress |
| DashboardSectionUser.CompletedCount | src/features/dashboard/user/DashboardSectionUser.jsx:41 | at most the number of bookings, and 0 exactly when no lower-cased status is completed |
| EmployeeLists.Accepts | src/features/booking/EmployeeLists.jsx:36-56 | the filter callback throws exactly when the name is not a string or the location, defaulted to "", is not one; otherwise it keeps the employee exactly when name, availability, rating and location all match |
| EmployeeLists.FilterList | src/features/booking/EmployeeLists.jsx:36-56 | the filter completes exactly when no callback throws, and then keeps at most every employee |
| EmployeeLists.FilterListKeepsAccepted | src/features/booking/EmployeeLists.jsx:36-56 | every employee kept comes from the list and is accepted, and every accepted one is kept |
| EmployeeLists.FilterListDistributes | src/features/booking/EmployeeLists.jsx:36-56 | filtering keeps relative order: it distributes over concatenation |
| EmployeeLists.FilteredEmployees | src/features/booking/EmployeeLists.jsx:36 | no list shows nothing, an array is filtered, and any other truthy value throws |
| EmployeeLists.EmptySearchMatchesEveryName | src/features/booking/EmployeeLists.jsx:37-39 | an empty search matches every name |
| EmployeeLists.NameMatchIgnoresCase | src/features/booking/EmployeeLists.jsx:37-39 | the name search ignores letter case on both sides |
| EmployeeLists.InitialCriteriaKeepEveryone | src/features/booking/EmployeeLists.jsx:26-55 | the initial filter settings keep every employee whose callback does not throw and whose rating passes 0 |
| EmployeeLists.MissingRatingCountsAsZero | src/features/booking/EmployeeLists.jsx:48-49 | a missing rating passes exactly when the minimum is at most 0 |
| EmployeeLists.LocationFilterNeedsLocation | src/features/booking/EmployeeLists.jsx:51-53 | with a location filter set, an employee without a location is dropped |
| EmployeeLists.Chips | src/features/booking/EmployeeLists.jsx:257-261 | an array, a string or nothing gives at most three chips: the first three items, the first three comma-separated pieces, or none; any other value throws |
| EmployeeLists.MoreChipMeansTruncated | src/features/booking/EmployeeLists.jsx:257-272 | the corrected "..." chip shows exactly when chips were cut off |
| EmployeeLists.MoreChipOnShortArray | src/features/booking/EmployeeLists.jsx:271-272 | for a string the written check and the corrected one agree, but a one-skill array shows "..." as written and not when corrected |
| PostView.UpdatePosts | src/features/posts/PostView.jsx:89-113 | same length and order; the posts with the id are updated and every other post is unchanged |
| PostView.UpdateComments | src/features/posts/PostView.jsx:174-217 | same length and order; the comments with the id are updated and every other comment is unchanged |
| PostView.ToggleLike | src/features/posts/PostView.jsx:89-101 | the liked flag flips and the count moves one way or the other; nothing else changes |
| PostView.LikeTwiceRestores | src/features/posts/PostView.jsx:89-101 | liking twice gives back the posts as they were |
| PostView.ToggleSave | src/features/posts/PostView.jsx:103-114 | only the saved flag flips |
| PostView.SaveAndLikeCommute | src/features/posts/PostView.jsx:89-114 | saving and liking commute, on the same post or on different posts |
| PostView.ToggleComments | src/features/posts/PostView.jsx:116-122 | only that post's visibility flips, a missing entry counting as hidden |
| PostView.HandleCommentChange | src/features/posts/PostView.jsx:124-138 | the typed text is stored under the post (or comment) id, and every other entry is kept; it models handleReplyChange too |
| PostView.HandleAddComment | src/features/posts/PostView.jsx:140-172 | a missing or blank comment changes nothing; otherwise the posts with that id gain the new comment at their end, the input is cleared, and nothing else changes |
| PostView.Rate | src/features/posts/PostView.jsx:174-196 | "like" adds one like; any other kind adds one dislike |
| PostView.HandleCommentLike | src/features/posts/PostView.jsx:174-196 | same length; posts without the id are unchanged |
| PostView.CommentLikeTouchesOneCount | src/features/posts/PostView.jsx:174-196 | in the post, only the rated comment changes, and only its like or its dislike count, by one |
| PostView.HandleToggleReplies | src/features/posts/PostView.jsx:202-219 | same length; posts without the id are unchanged; in a matching post only the matching comments' showReplies flips (`ToggleRepliesFlipsOneFlag`) |
| PostView.ToggleRepliesFlipsOneFlag | src/features/posts/PostView.jsx:202-219 | in a matching post, a comment with the id has only its showReplies flipped, every other comment and every other field of the post stays |
| PostView.ToggleRepliesTwiceRestores | src/features/posts/PostView.jsx:202-219 | toggling a comment's replies twice gives back the posts as they were |
| PostsProfileView.FirstUnitFrom | src/features/dashboard/employee/PostsProfileView.jsx:65-79 | the first unit, from the largest down, that fits at least once into the seconds, or none when none fits |
| PostsProfileView.TimeAgo | src/features/dashboard/employee/PostsProfileView.jsx:59-81 | the loop over the units returns what the specification function does |
| PostsProfileView.JustNowIffUnderASecond | src/features/dashboard/employee/PostsProfileView.jsx:59-81 | "just now" exactly when less than a second has passed |
| PostsProfileView.AgoNamesLargestUnit | src/features/dashboard/employee/PostsProfileView.jsx:65-79 | the text counts in the largest unit that fits, rounded down |
| PostsProfileView.HasImage | src/features/dashboard/employee/PostsProfileView.jsx:83-87 | no picture for a falsy path, a throw for a truthy non-string, and for a string: a full URL, a media path or an image extension in any case |
| PostsProfileView.ImageUrl | src/features/dashboard/employee/PostsProfileView.jsx:89-95 | the no-image placeholder for a falsy path, a full URL as is, a media path behind the server address, and the text-post placeholder otherwise |
| PostsProfileView.ExtensionOnlyImageGetsPlaceholder | src/features/dashboard/employee/PostsProfileView.jsx:83-95 | a bare "photo.JPG" counts as an image but is shown as the text-post placeholder |
| PostsProfileView.ProfileImageUrl | src/features/dashboard/employee/PostsProfileView.jsx:34-36 | the employee's own picture first, then the user profile's; a full URL as is, a path behind the server address, the placeholder for none |
| PostsProfileView.OwnPictureWins | src/features/dashboard/employee/PostsProfileView.jsx:34-36 | the employee's own full-URL picture is shown as is, whatever the user profile holds |
| PostsProfileView.CommentUserNameAsWritten | src/features/dashboard/employee/PostsProfileView.jsx:112-121 | "User" for no comment; the user's username, then its full name, then the comment's own names, and last the `user` value itself or "User" |
| PostsProfileView.NamelessUserObjectIsReturned | src/features/dashboard/employee/PostsProfileView.jsx:112-121 | a comment whose user object has no name yields that object, not a name |
| PostsProfileView.CommentUserName | src/features/dashboard/employee/PostsProfileView.jsx:112-121 | always a truthy name: as written for a string user or none, and "User" instead of a nameless user object |
| PostsProfileView.PostModal.constructor | src/features/dashboard/employee/PostsProfileView.jsx:24-27 | no post selected, the modal closed, an empty comment box, not sending, nothing sent |
| PostsProfileView.PostModal.HandleImageClick | src/features/dashboard/employee/PostsProfileView.jsx:97-102 | the post is selected, the modal opened and its id's comments requested; nothing else changes |
| PostsProfileView.PostModal.SetCommentText | src/features/dashboard/employee/PostsProfileView.jsx:379 | only the comment text changes |
| PostsProfileView.PostModal.CloseModal | src/features/dashboard/employee/PostsProfileView.jsx:104-109 | the modal is closed and forgets the post, the text and the sending flag |
| PostsProfileView.PostModal.HandleAddComment | src/features/dashboard/employee/PostsProfileView.jsx:123-141 | a blank text or no selected post changes nothing; otherwise the trimmed text is sent for the post, the box is emptied only when the server accepted it, and the sending flag ends false |
| PostsProfileView.SentCommentIsTrimmed | src/features/dashboard/employee/PostsProfileView.jsx:124-125 | a sent comment neither starts nor ends with whitespace, and trimming it again changes nothing |
| PostsProfileView.Total | src/features/dashboard/employee/PostsProfileView.jsx:191-197 | 0 when no post has the count; a number exactly when every post's count, defaulted to 0, is a number; its value is fixed by `TotalOfOne`, `TotalAppend` and `TotalIsReduce` |
| PostsProfileView.TotalOfOne | src/features/dashboard/employee/PostsProfileView.jsx:191-197 | one post's total is its own count, read as 0 when falsy |
| PostsProfileView.ReduceCounts | src/features/dashboard/employee/PostsProfileView.jsx:191-197 | the `reduce` taken left to right from an accumulator; once the sum is not a number it stays so |
| PostsProfileView.ReduceCountsAddsTotal | src/features/dashboard/employee/PostsProfileView.jsx:191-197 | folding from any numeric accumulator adds the total of the posts to it; a non-numeric one stays non-numeric |
| PostsProfileView.TotalIsReduce | src/features/dashboard/employee/PostsProfileView.jsx:191-197 | the page's `reduce` from 0 gives exactly `Total`, so the Likes and Comments cards show the sum of every post's count |
| PostsProfileView.MissingCountAddsNothing | src/features/dashboard/employee/PostsProfileView.jsx:191-197 | a post without the count adds nothing |
| PostsProfileView.TotalAppend | src/features/dashboard/employee/PostsProfileView.jsx:191-197 | the total over two lists put together is the sum of their totals |
| EmployeeLists.NameMatch | src/features/booking/EmployeeLists.jsx:37-39 | an empty search matches every name; a match is never longer than the name |
| EmployeeLists.AvailabilityMatch | src/features/booking/EmployeeLists.jsx:41-46 | "all" accepts everyone; otherwise a match exactly when the flag's truthiness agrees with "available" |
| EmployeeLists.RatingMatch | src/features/booking/EmployeeLists.jsx:48-49 | a numeric rating at least the minimum matches and a non-zero one below it does not; a falsy rating counts as 0; an array or object never matches in the model (see "## Left out") |
| EmployeeLists.SkillCount | src/features/booking/EmployeeLists.jsx:257-272 | an array's length, at least one piece for a string (exactly one without a comma), 0 for anything else |
| EmployeeLists.MoreChipAsWritten | src/features/booking/EmployeeLists.jsx:271-272 | every array shows "..."; for anything else it agrees with `MoreChip` |
| EmployeeLists.MoreChip | src/features/booking/EmployeeLists.jsx:257-272 | only an array or string can show "..."; an array exactly when it has more than three skills; never a comma-free string |
| PostView.HandleLike | src/features/posts/PostView.jsx:89-101 | the posts with the id flip their liked flag and move their count one way or the other, nothing else of them changes; other posts are untouched |
| PostView.HandleSave | src/features/posts/PostView.jsx:103-114 | the posts with the id flip only their saved flag; other posts are untouched |
| PostView.NewComment | src/features/posts/PostView.jsx:140-172 | the new comment carries the id and the text, no likes, dislikes or replies, and shows its replies |
| PostsProfileView.Phrase | src/features/dashboard/employee/PostsProfileView.jsx:75-77 | always ends in " ago"; one unit is "1 <unit> ago"; more start with the count and end in "<unit>s ago" |
| PostsProfileView.Ago | src/features/dashboard/employee/PostsProfileView.jsx:59-81 | "just now" under a second; from one second on a phrase ending in " ago" |
| PostsProfileView.TimeAgoText | src/features/dashboard/employee/PostsProfileView.jsx:59-81 | "" without a date; "just now" for a date that does not parse or is less than a second old; otherwise a phrase ending in " ago" |
| PostsProfileView.HasImageExtension | src/features/dashboard/employee/PostsProfileView.jsx:87 | matches only paths of four characters or more, and every path ending in .jpg, .png, .gif, .jpeg or .webp in any case |
| PostsProfileView.LowerSuffixes | src/features/dashboard/employee/PostsProfileView.jsx:87 | the case-insensitive match of the regular expression's last four or five characters can be read on the path's own tail |
| PostsProfileView.OneMinuteAgo | src/features/dashboard/employee/PostsProfileView.jsx:65-79 | anything from 60 to 119 seconds reads "1 minute ago" |
| PostsProfileView.WholeHoursAgo | src/features/dashboard/employee/PostsProfileView.jsx:65-79 | a whole number of hours from 2 to 23 reads "<n> hours ago" |
| Forms.WithField | src/pages/RegisterPage.jsx:30-33 | the field is set and every other field kept; no field is lost |
| Forms.IntString | src/features/dashboard/employee/ProfileSection.jsx:154-155 | the decimal text of an integer, with a minus sign for a negative one, never empty |
| Forms.JoinPieces | src/features/dashboard/employee/ProfileSection.jsx:81-85 | one text per element, and a string element is its own text |
| Forms.ArrayJoinOfStrings | src/features/dashboard/employee/ProfileSection.jsx:81-85 | joining an array of strings joins the strings themselves |
| Forms.PartText | src/features/dashboard/employee/ProfileSection.jsx:152-165 | a string value is carried as itself |
| Forms.Names | src/features/dashboard/employee/ProfileSection.jsx:151-169 | the part names, one per part, in order |
| Forms.ImageUrl | src/features/dashboard/employee/ProfileSection.jsx:88-93 | the placeholder for a missing or empty path, a full URL as is, any other path behind the server address, and a throw for a present value that is not a string |
| ProfileSection.SkillsFrom | src/features/dashboard/employee/ProfileSection.jsx:79-86 | a string is taken as is and anything that is neither string nor array gives "" |
| ProfileSection.SkillsText | src/features/dashboard/employee/ProfileSection.jsx:79-86 | the employee record's truthy skills win, then the user record's, then "" |
| ProfileSection.ExperienceText | src/features/dashboard/employee/ProfileSection.jsx:104 | a missing experience gives "" and a string is kept as is |
| ProfileSection.LoadedForm | src/features/dashboard/employee/ProfileSection.jsx:88-109 | no form exactly when computing the picture throws; otherwise name, email, phone and location from the user record or "", title, bio and rate from the employee record or "", the experience text, the coordinates preferring the employee record, the availability from the employee flag, the skills text and the resolved picture |
| ProfileSection.LoadedMarker | src/features/dashboard/employee/ProfileSection.jsx:111-114 | a marker exactly when the employee record has both coordinates |
| ProfileSection.Clean | src/features/dashboard/employee/ProfileSection.jsx:160-162 | trimming and dropping empty pieces never adds a piece |
| ProfileSection.TrimKeepsOut | src/features/dashboard/employee/ProfileSection.jsx:161 | trimming adds no character that was not there |
| ProfileSection.CleanIsClean | src/features/dashboard/employee/ProfileSection.jsx:160-162 | every kept piece is non-empty, trimmed and free of commas |
| ProfileSection.SkillListIsClean | src/features/dashboard/employee/ProfileSection.jsx:160-162 | the skills list of any text is made of clean skills |
| ProfileSection.SkillsPartRoundTrip | src/features/dashboard/employee/ProfileSection.jsx:157-163 | splitting the sent skills text on commas gives back the skills list |
| ProfileSection.CleanAfterSplit | src/features/dashboard/employee/ProfileSection.jsx:81-162 | clean skills joined with ", " behind leading spaces split and clean back to the same skills |
| ProfileSection.SkillsSurviveReload | src/features/dashboard/employee/ProfileSection.jsx:81-162 | clean skills joined as the page loads them are saved as the same list |
| ProfileSection.LoadedSkillsAreSavedUnchanged | src/features/dashboard/employee/ProfileSection.jsx:79-163 | a profile whose employee record lists clean skills has exactly those skills in the form's list |
| ProfileSection.WithInput | src/features/dashboard/employee/ProfileSection.jsx:119-122 | each of the thirteen field names sets its own field to the typed text and keeps the others; any other name leaves the form as it was |
| ProfileSection.SkillsArray | src/features/dashboard/employee/ProfileSection.jsx:157-163 | an array with one entry per cleaned skill |
| ProfileSection.SkillsArrayText | src/features/dashboard/employee/ProfileSection.jsx:157-163 | the part carrying the skills array reads as the cleaned skills joined with "," |
| ProfileSection.ValueParts | src/features/dashboard/employee/ProfileSection.jsx:151-165 | eight value parts; "available" carries whether the availability is "available", and "skills" the cleaned list |
| ProfileSection.SaveBody | src/features/dashboard/employee/ProfileSection.jsx:151-169 | the eight value parts, then the picture exactly when a file was picked |
| ProfileSection.AvailablePartText | src/features/dashboard/employee/ProfileSection.jsx:156 | the "available" part reads "true" exactly when the availability is "available" |
| ProfileSection.SaveBodyNames | src/features/dashboard/employee/ProfileSection.jsx:151-169 | the parts are title, bio, experience, hourly_rate, available, skills, latitude and longitude, then profile_image only when a file was picked |
| ProfileSection.SaveRequest | src/features/dashboard/employee/ProfileSection.jsx:137-171 | no token stops first, no marker second; otherwise the body is sent with the marker's coordinates |
| ProfileSection.ProfileEditor.constructor | src/features/dashboard/employee/ProfileSection.jsx:46-65 | the empty form, no picked file and no marker |
| ProfileSection.ProfileEditor.LoadProfile | src/features/dashboard/employee/ProfileSection.jsx:72-116 | a falsy profile changes nothing; otherwise the form becomes the loaded one unless the picture throws, and the marker moves only when the employee record has both coordinates |
| ProfileSection.ProfileEditor.HandleChange | src/features/dashboard/employee/ProfileSection.jsx:119-122 | the form becomes `WithInput` of it; nothing else changes |
| ProfileSection.ProfileEditor.HandleImageChange | src/features/dashboard/employee/ProfileSection.jsx:125-134 | a picked file is kept and previewed; no file changes nothing |
| ProfileSection.ProfileEditor.PickLocation | src/features/dashboard/employee/ProfileSection.jsx:25-39 | the marker moves to the clicked point; nothing else changes |
| ProfileSection.ProfileEditor.HandleSave | src/features/dashboard/employee/ProfileSection.jsx:137-171 | the body built part by part is the one `SaveRequest` decides |
| ProfileSection.SavedSkillsAreTheTypedList | src/features/dashboard/employee/ProfileSection.jsx:157-163 | whatever file is picked, the skills reach the server as the cleaned list of what was typed |
| ProfileSection.TrimStartAfterSpaces | src/features/dashboard/employee/ProfileSection.jsx:161 | leading whitespace in front of a text does not change what trimming its start gives |
| ProfileSection.TrimAfterSpaces | src/features/dashboard/employee/ProfileSection.jsx:161 | a clean skill behind whitespace trims to the skill itself |
| ProfileSection.CleanCons | src/features/dashboard/employee/ProfileSection.jsx:160-162 | cleaning a list is cleaning its first piece, then the rest |
| ProfileSection.SpacesHaveNoComma | src/features/dashboard/employee/ProfileSection.jsx:160 | whitespace holds no comma |
| ProfileSection.CleanOfLastPiece | src/features/dashboard/employee/ProfileSection.jsx:160-162 | the last piece, behind whitespace, cleans to itself, or to nothing when empty |
| ProfileSection.CleanOfFirstPiece | src/features/dashboard/employee/ProfileSection.jsx:160-162 | a clean skill followed by ", " and more cleans to that skill, then the cleaning of the rest |
| Forms.StringOf | src/features/dashboard/employee/ProfileSection.jsx:151-165 | `String(v)`: a string as it is, a number its decimal text, "undefined" and "null" spelled out, an empty array "", a one-string array that string, an array of one undefined or null "" |
| Forms.ArrayJoin | src/features/dashboard/employee/ProfileSection.jsx:81-85 | `items.join(sep)`: "" for no items, a single string item as it is, and otherwise beginning with the first string item and the separator |
| Forms.IntStringRoundTrip | src/features/dashboard/employee/ProfileSection.jsx:151-165 | the text of any integer converts back to that integer |
| ProfileSection.SkillList | src/features/dashboard/employee/ProfileSection.jsx:157-163 | no more skills than comma-separated pieces, and none for an empty text |
| ProfileSection.SkillsPart | src/features/dashboard/employee/ProfileSection.jsx:157-163 | "" for no skills, the skill itself for one, and otherwise beginning with the first skill |
| Js.Or | src/features/dashboard/user/UserProfile.jsx:60-64 | `a or b` in JavaScript: the left value when it is truthy, the right one otherwise |
| Js.FirstTruthy | src/features/booking/bookingSlice.js:31-36 | a chain of logical ors: the first truthy candidate, the fallback when none is truthy, and a truthy result when the fallback is truthy |
| Js.MessageOr | src/features/dashboard/profileSlice.js:13-15 | the body's message or a fallback: always truthy; the body's message when it has a truthy one, the fallback text otherwise |
| Js.ToNumber | src/pages/OtpVerifyPage.jsx:33 | `Number(v)`: numbers as they are, null and false 0, true 1, undefined NaN; a string is trimmed, "" is 0, otherwise it is read by `DecimalValue` |
| Js.DecimalString | src/features/dashboard/employee/ProfileSection.jsx:104 | a non-empty digit string without a leading zero |
| Js.DecimalStringRoundTrip | src/features/dashboard/employee/ProfileSection.jsx:104 | reading the decimal text of n back gives n |
| Js.NumberOfDigits | src/features/dashboard/employee/DashboardSection.jsx:69 | `Number` of a digit string is the number it spells |
| Js.Lower | src/layouts/navbar/Navbar.jsx:30 | `toLowerCase()`: same length, each character lower-cased |
| Js.LowerIsIdempotent | src/layouts/navbar/Navbar.jsx:30 | lower-casing twice is lower-casing once |
| Js.IncludesAt | src/features/booking/EmployeeLists.jsx:37-39 | a text occurring at some position is included |
| Js.IncludesHasPosition | src/features/booking/EmployeeLists.jsx:37-39 | an included text occurs at some position |
| Js.TrimStart | src/features/home/Home.jsx:45 | a suffix of the text; everything cut is whitespace, and what is left does not start with whitespace |
| Js.TrimEnd | src/features/home/Home.jsx:45 | a prefix of the text; everything cut is whitespace, and what is left does not end with whitespace |
| Js.Trim | src/features/home/Home.jsx:45 | `trim()`: no longer than the text, and neither starting nor ending with whitespace |
| Js.TrimEmptyIffBlank | src/features/home/Home.jsx:45 | trimming gives "" exactly when the text is all whitespace |
| Js.TrimIsIdempotent | src/features/home/Home.jsx:45 | trimming twice is trimming once |
| Js.Split | src/features/dashboard/employee/ProfileSection.jsx:160 | `split(sep)`: at least one piece, and no piece holds the separator |
| Js.JoinSplit | src/features/dashboard/employee/ProfileSection.jsx:160 | joining the pieces of a split with the separator gives back the text |
| Js.SplitPieceThenRest | src/features/dashboard/employee/ProfileSection.jsx:160 | a piece without the separator, then the separator, splits into that piece and the split of the rest |
| Js.SplitWithoutSeparator | src/features/dashboard/employee/ProfileSection.jsx:160 | a text without the separator splits into itself |
| Js.SplitJoin | src/features/dashboard/employee/ProfileSection.jsx:160 | pieces without the separator, joined with it, split back into the same pieces |
| Js.ReplaceFirst | src/features/dashboard/user/DashboardSectionUser.jsx:172 | `replace(from, to)` with a one-character pattern: same length, and a text without the character is unchanged |
| Js.ReplaceFirstAt | src/features/dashboard/user/DashboardSectionUser.jsx:172 | only the first occurrence is replaced |
| Js.At | src/features/authentication/auth/authSlice.js:53 | `v?.[i]`: an array's element, a string's one-character string (always truthy), an object's property named by the decimal text of i; undefined past the end and for every other value |
| Js.AtZeroOfObject | src/features/authentication/auth/authSlice.js:53 | index 0 of an object reads its property "0" |
| Js.Truthy | src/features/dashboard/user/UserProfile.jsx:60-64 | undefined, null, false, 0 and "" are falsy; arrays, objects, true, non-zero numbers and non-empty strings are truthy |
| Js.Member | src/features/authentication/auth/authSlice.js:53 | `v?.key`: the object's property (undefined when missing); undefined for anything that is not an object |
| Js.Field | src/features/booking/bookingSlice.js:32 | a property that is present is its value; a value other than undefined comes from a present property |
| Js.FieldAfterSet | src/features/dashboard/employee/ProfileSection.jsx:121 | after setting a property, reading it gives the new value and every other property reads as before |
| Js.StartsWith | src/features/dashboard/employee/ProfileSection.jsx:89 | a prefix is no longer than the text; the empty text and the text itself are prefixes |
| Js.Includes | src/features/booking/EmployeeLists.jsx:37-39 | a prefix is included, and an included text is no longer than the text |
| Js.Join | src/pages/OtpVerifyPage.jsx:50 | no parts join to ""; the result starts with the first part; two or more parts add at least one separator |
| Js.IndexOf | src/features/dashboard/employee/DashboardSection.jsx:69 | the first position of the character, or the length when it does not occur |
| Js.TrimOfUnpadded | src/features/dashboard/employee/DashboardSection.jsx:69 | a text with no whitespace at either end is its own trim |
| Js.DecimalValueOfZeroFraction | src/features/dashboard/employee/DashboardSection.jsx:69 | digits, a point and zeros spell the number the digits spell |
| Js.DecimalValueOfDigits | src/features/dashboard/employee/DashboardSection.jsx:69 | plain digits spell the number they spell |
| Js.ZeroFractionIsWhole | src/features/dashboard/employee/DashboardSection.jsx:69 | `Number("150.00")`-style text, digits then a zero fraction, is the whole number |

## Left out

- Network I/O, the axios library internals and the Django backend. Every server answer is an input, and the model states what each answer leads to.
- Concurrent 401s: each failing request refreshes on its own, and the source has no shared in-flight refresh. The model follows one request at a time, so it cannot show duplicate refresh calls.
- A refresh response without `access`: the model's refresh outcome always carries a token string. It does not capture the string "undefined" that would then be stored.
- JSX rendering, styling, icons, toasts and animations. Only the values that decide what a page shows are modelled (labels, counts, visibility conditions, navigation targets).
- Purely presentational or wiring files, which have no logic of their own to state:
  - `Admin`, `UPIPayment`, `Login.jsx`, `Register.jsx`, `About`, `Footer`, `AnimatedShowcase` and `EmployeeSection`;
  - `main.jsx`, `store.js`, `EmployeeDash`, `UserDash`, `SidebarUser` and `PublicRoute`.
- The Redux Toolkit and immer machinery (action creators, `createAsyncThunk` plumbing, `useSelector`) and React effect timing. Each reducer is modelled as a method on its slice's state, and each effect as a function of its dependencies.
- Floating point is not modelled; numbers are integers:
  - BookingStatic's `parseFloat` of each booking's coordinates, which only places map markers, is not modelled; for ProfileSection's see the `ProfileSection.LoadedMarker` line below;
  - RegisterPage's `toFixed(6)` rounding of the picked point is taken as the identity;
  - DashboardSection's earnings are summed over integer amounts (see the `DashboardSection.Earnings` line below).
- Dates and the clock:
  - `new Date(...)` parsing and `toLocale…` formatting are left out;
  - the time-ago label takes the elapsed seconds as its input, and `Date.now()` ids are parameters;
  - `setInterval` and `setTimeout` are modelled only by the step each tick performs.
- Case mapping is ASCII only. `toLowerCase` of non-ASCII letters is not modelled.
- `JSON.parse` and `JSON.stringify` of the stored user are left out. The parsed user is an input.
- `URL.createObjectURL` is a parameter; the Blob and File contents of multipart parts are not modelled.
- Focus management and keyboard navigation between the OTP boxes (the refs, `handleKeyDown`) are not modelled, and neither is the Leaflet map beyond the point it reports.
- PostsProfileView's `commentsForSelectedPost` selector is not modelled. It is a lookup of the selected post's id in the profile store's `commentsByPost`, which the model does keep (`ProfileSlice.ProfileStore.FetchCommentsFulfilled`, `AddCommentFulfilled`). JavaScript's conversion of a numeric id to a string key is not modelled.
- The `updateComment` thunk (PUT `/comments/<id>/`) is not modelled. No reducer handles its result, so it never changes the store.
- A `handleChange` whose input name is not a field of the form adds a key that no code reads. Where a page keeps its form as a record, the model leaves the form unchanged in that case.
- Js.ToNumber: only decimal integers are read, with an optional sign and an all-zero fraction (`"150.00"` is 150). Hexadecimal (`"0x1f"`), exponents (`"1e3"`), `"Infinity"` and non-zero fractions (`"1.5"`) are NaN in the model, whereas JavaScript reads them as numbers, because numbers are integers here. `Number` of an array or object is NaN in the model; `PostSlice.NumberOf` handles the array case where a count can be one.
- OtpVerifyPage.IsNaN: `"0x1f"`, `"1e3"` and `"Infinity"` count as not a number in the model, whereas the page's `isNaN` accepts them. This follows from the `Js.ToNumber` line above. Single digits, the only input a box holds, are read as JavaScript reads them.
- `OtpVerify.jsx` is not part of this model. The lemmas assume at most one character per box, which its `maxLength` would enforce.
- OtpVerifyPage.OtpPage.HandleChange: requires the index to name an existing box. In JavaScript, assigning past the end would lengthen the array, but the page only renders existing boxes.
- Booking statuses that are not strings: only the string labels the pages compare against are modelled.
- ProfileSection.LoadedMarker: the marker keeps the stored latitude and longitude as they came, unparsed. The page applies `parseFloat`, so a text such as `"27.70"` becomes the number 27.7 there (and is sent back as 27.7 on save), while the model keeps and sends `"27.70"`; a text with trailing characters such as `"27.7abc"` also keeps them in the model.
- PostsProfileView.Total: a count that is present but not a number (the text `"5"`, `true`) gives no total in the model, whereas the page's `acc + (p.likes_count || 0)` would concatenate text or add a boolean as 0 or 1. Counts are numbers from the server; only numeric counts are summed.
- EmployeeLists.RatingMatch: an array rating never matches in the model, whereas JavaScript's `>=` reads an array through its text (`[] >= 0` and `[5] >= 3` hold). This follows from the `Js.ToNumber` line above; an object rating does not match in either.
- DashboardSection.Earnings: an amount with a non-zero fraction (`"150.50"`) is NaN in the model, so the total is NaN, whereas the page adds the fractional value and rounds the sum with `toFixed(0)`. Whole amounts, written as numbers or as text such as `"150"` or `"150.00"`, are summed as the page sums them.
- The `console.log` calls in the thunks' catch blocks write nothing the model can observe. They are left out, except in fetchPostsByEmployeeId, where the log itself throws (see "## Findings").
- DashboardSectionUser: the "total bookings" card is the length of the list, which needs no member of its own. The active and completed counts are related to it.

## Findings

| source | as written | input that shows it | evidently intended | confidence | as-written member | corrected member |
|---|---|---|---|---|---|---|
| src/features/dashboard/profileSlice.js:65-71 | the catch block logs `error.response.data` before building the payload, which throws when there is no response | a network failure with no server answer: the thunk rejects with no payload, and the page shows no message | reject with the server's message or the fallback text in every case | not executed | ProfileSlice.FetchPostsRejectionAsWritten | ProfileSlice.FetchPostsRejection |
| src/features/authentication/auth/authSlice.js:18-20 | a string `error` is indexed with `[0]`, as if it were an array of messages | `{ error: "Email already exists" }` gives the message "E" | the whole string as the message | not executed | AuthSlice.RegisterRejection | AuthSlice.RegisterRejectionIntended |
| src/features/booking/EmployeeLists.jsx:271 | the "..." chip shows whenever the skills are an array, whatever their length | skills `["Plumbing"]` show one chip followed by "..." | show "..." only when some chips were cut off | not executed | EmployeeLists.MoreChipAsWritten | EmployeeLists.MoreChip |
| src/features/dashboard/employee/PostsProfileView.jsx:112-121 | an object user without a username or full name is returned as the name itself | a comment whose user is `{ id: 3 }` yields an object, not a name | fall back to "User" | not executed | PostsProfileView.CommentUserNameAsWritten | PostsProfileView.CommentUserName |
| src/features/dashboard/user/UserProfile.jsx:65-67 | every truthy picture path is put behind the server address | `"http://127.0.0.1:8000/media/a.png"` becomes `"http://127.0.0.1:8000http://127.0.0.1:8000/media/a.png"` | a full URL is shown as it is, as the employee profile page does | not executed | UserProfile.ImageUrlAsWritten | UserProfile.ImageUrl |

The stores and pages follow the code as written, so they keep each discrepancy. The corrected definitions sit beside them, with their intended properties proved. The lemmas that exhibit each discrepancy are listed below.

- `ProfileSlice.FetchPostsNetworkFailureLosesMessage`
- `AuthSlice.StringErrorGivesFirstCharacter`. The same first-character reading of a string happens in OTP verification, login and booking creation, which the model keeps as written: `AuthSlice.StringNonFieldErrorsGiveFirstCharacter` and `BookingSlice.StringDateErrorGivesFirstCharacter`.
- `EmployeeLists.MoreChipOnShortArray`, with `EmployeeLists.MoreChipMeansTruncated` for the corrected chip
- `PostsProfileView.NamelessUserObjectIsReturned`
- `UserProfile.FullUrlGetsPrefixedTwice`, with `UserProfile.ImageUrlFixesOnlyFullUrls` and `UserProfile.FullUrlShownOnce` for the corrected URL
