# Sublyy, modelled in Dafny

Sublyy tracks recurring subscriptions. Its backend stores users and
subscriptions in MongoDB and does four things:

- signs users up and in with bcrypt-hashed passwords and JWT access/refresh tokens;
- signs users in through Google;
- keeps per-user settings;
- lists subscriptions and computes a monthly spending report.

The React client adds these pieces:

- a password strength meter;
- a navbar that hides itself on some pages;
- an "add subscription" form with autocomplete;
- a category bar chart;
- a session kept in `localStorage`.

This project restates that behaviour as pure Dafny functions over immutable
datatypes and proves properties of it:

- The database is a `map` from user id to `User`, and a `seq` of `Subscription`s.
- bcrypt and JWT are a record of functions (`Crypto.Crypto`). `Crypto.Sound` states what the model assumes of them: a hash compares true against its password, a token verifies under the secret that signed it, and a token does not verify under any other secret.
- `JSON.stringify`/`JSON.parse` are likewise a record (`Session.JsonCodec`) with its own `Sound`.
- Handlers return their HTTP status, body and cookie effect together with the new store.
- Fresh ObjectIds are a parameter. An id already in use makes the save fail, as a duplicate `_id` does.

Modules follow the program:

| module | part of the system |
|---|---|
| `Base`, `Text`, `Sorting` | truthiness, string operations, a stable sort |
| `UserModel`, `SubscriptionModel` | the two collections |
| `Crypto`, `Auth`, `GoogleAuth`, `Guard` | signup, login, refresh and logout; the Google strategy; `verifyToken` |
| `UserSettings` | the settings handlers |
| `Ledger` | the subscription handlers |
| `CategoryMap` | the analytics handler as written (see Findings) |
| `PasswordMeter`, `Navbar`, `AddForm`, `CategoryChart`, `Session` | the client pieces |
| `Flows` | properties that span several handlers |

## Model

| member | source | states |
|---|---|---|
| Text.Split | Backend/src/middlewares/authMiddleware.js:9 | `split(' ')` yields at least one part; no part contains the separator; joining the parts with it gives back the input |
| Text.SplitFirst | Backend/src/middlewares/authMiddleware.js:9 | splitting text whose first separator follows `a` yields `a`, then the split of the rest |
| Text.IncludesAt | Frontend/sublyy-frontend/src/pages/Dashboard/AddSubscription.jsx:145 | the scanning `includes` holds exactly when the fragment occurs at some position |
| Text.Lower | Frontend/sublyy-frontend/src/pages/Dashboard/AddSubscription.jsx:145 | `toLowerCase` keeps the length and lowers each character on its own |
| Text.Utf16Length | Frontend/sublyy-frontend/src/components/ui/PasswordStrengthMeter.jsx:6 | `length` counts UTF-16 units: a single character above U+FFFF counts 2, any other counts 1, and a string has between one and two units per character |
| Text.Utf16LengthAppend | Frontend/sublyy-frontend/src/components/ui/PasswordStrengthMeter.jsx:6 | `length` of a concatenation is the sum of the lengths; with the one-character case this fixes `length` on every string |
| Text.AstralCharsCountTwice | Frontend/sublyy-frontend/src/components/ui/PasswordStrengthMeter.jsx:6 | four emoji already have `length` 8 and so pass the length criterion, while "abcd" has length 4 |
| Sorting.Insert | Backend/src/controllers/subscriptionController.js:24 | insertion adds exactly the new element: multiset and length |
| Sorting.InsertSorted | Backend/src/controllers/subscriptionController.js:24 | inserting into a sorted sequence keeps it sorted |
| Sorting.InsertKeyClass | Frontend/sublyy-frontend/src/components/charts/SubscriptionCategoryChart.jsx:15 | an inserted element goes to the front of its key class; other classes are untouched |
| Sorting.SortBy | Backend/src/controllers/subscriptionController.js:24 | the result is sorted by the key and is a permutation of the input |
| Sorting.SortByStable | Frontend/sublyy-frontend/src/components/charts/SubscriptionCategoryChart.jsx:15 | elements with equal keys keep their input order (ECMAScript's sort is stable) |
| UserModel.FindByEmail | Backend/src/controllers/authController.js:29 | `findOne({ email })` finds a user exactly when one has that email, and returns the stored document |
| UserModel.FindByGoogleId | Backend/src/config/passport.js:17 | `findOne({ googleId })` finds a user exactly when one has that googleId |
| UserModel.SaveNew | Backend/src/models/user.js:10-25 | a save succeeds exactly when username and email are non-empty, the password is truthy unless a googleId is set, and the id, email and googleId are all unused; success keeps the unique indexes and the validity of every document |
| SubscriptionModel.FromInput | Backend/src/models/subscription.js:3-17 | a document is built exactly when name, category and billingCycle are non-empty, a date is given and the price casts to a number; it is then valid, owned by the authenticated user, carries the cast price, copies the other fields, and is coloured "#6366f1" only for an absent colour (a `null` colour is stored as null) |
| SubscriptionModel.CastNumber | Backend/src/models/subscription.js:7 | a number is kept; absent, `null` and "" give no number; the decimal text of every natural number casts to that number |
| SubscriptionModel.CastDecimalText | Backend/src/models/subscription.js:7 | price text of digits, a point and digits, such as the form's "9.99", casts to its decimal value, and a leading "-" negates it |
| SubscriptionModel.FormPriceCasts | Backend/src/models/subscription.js:7 | the text "9.99" is stored as the number 9.99 |
| SubscriptionModel.NegativePriceCasts | Backend/src/models/subscription.js:7 | the text "-0.5" is stored as -0.5, since the schema has no lower bound |
| SubscriptionModel.CastNegativeNatText | Backend/src/models/subscription.js:7 | "-" followed by the decimal text of a natural number casts to its negation |
| SubscriptionModel.ParseNatText | Backend/src/models/subscription.js:7 | the decimal text of every natural number reads back as that number, so "0" casts to 0 |
| Auth.GenerateTokens | Backend/src/controllers/authController.js:8-22 | both tokens carry `{userId}`; each verifies under its own secret and not under the other when the secrets differ |
| Auth.NewAccount | Backend/src/controllers/authController.js:35-38 | the account stores a hash the password compares true against, has no googleId and the default settings, and is valid exactly when username, email and hash are non-empty |
| Auth.SignUp | Backend/src/controllers/authController.js:24-58 | 400 exactly when the email is taken; 201 exactly when the save can succeed, storing the hash (not the password) and returning the access token, the public user and the refresh cookie; 500 otherwise; the store changes only on 201 and keeps its indexes |
| Auth.LoginDecision | Backend/src/controllers/authController.js:65-80 | an accepted login names the stored user with that email |
| Auth.Login | Backend/src/controllers/authController.js:61-92 | missing fields give 400 before any lookup; 200 exactly when the user exists, has a truthy password and the comparison succeeds, returning the token pair of that user and no user object; 500 exactly when the user's stored password is falsy |
| Auth.Refresh | Backend/src/controllers/authController.js:94-105 | no cookie gives 401; a token that fails under the refresh secret gives 403; otherwise 200 with an access token for the decoded user id; the cookie is never replaced |
| Auth.Logout | Backend/src/controllers/authController.js:107-110 | always 200, and the refresh cookie is cleared |
| GoogleAuth.GoogleAccount | Backend/src/config/passport.js:21-26 | the created user has the profile's googleId, the first email, the password "", and the display name or else the email as username |
| GoogleAuth.GoogleCallback | Backend/src/config/passport.js:12-36 | a user is handed to `done` exactly when one with the googleId exists or the profile has an email and the new account can be saved; an existing googleId returns that user with the store unchanged; a creation stores exactly the new account; a failed save returns no user and changes nothing; indexes and validity are kept |
| GoogleAuth.CallbackIdempotent | Backend/src/config/passport.js:17-31 | running the callback twice with one profile creates at most one user, and the second run returns the first run's user |
| GoogleAuth.CallbackEmailTaken | Backend/src/config/passport.js:28-34 | a new Google profile whose email another account owns gets no user and changes nothing |
| GoogleAuth.SerializeRoundTrip | Backend/src/config/passport.js:40-47 | deserializing a stored user's serialized id gives back that user, and a user found by id serializes back to that id |
| UserSettings.GetUserSettings | Backend/src/controllers/userController.js:4-12 | 404 exactly for an unknown id; otherwise the username, email, profilePic and settings of that user, with no password |
| UserSettings.ApplyPatch | Backend/src/controllers/userController.js:22-26 | each settings key present overwrites that key only; an empty patch changes nothing |
| UserSettings.ApplyUpdate | Backend/src/controllers/userController.js:17-26 | username, email and profilePic change only to truthy values; settings take the patch key by key when one is sent and are kept otherwise; id, password and googleId never change; an empty request changes nothing; a valid user stays valid |
| UserSettings.UpdateUserSettings | Backend/src/controllers/userController.js:15-45 | `null` with 200 exactly for an unknown id, with nothing changed; 500 exactly when the new email is owned by another user, with nothing stored or emitted; otherwise 200 with the updated projection and only the requester's document changed; the event goes to the requester's connection exactly when one is registered; the event carries the updated projection, or `null` for an unknown id |
| UserSettings.UpdateNotifiesOnlyRequester | Backend/src/controllers/userController.js:35-39 | with one user per connection, no other user's connection hears the update |
| UserSettings.UpdateThenRead | Backend/src/controllers/userController.js:4-41 | after a successful update the next read returns the same projection, with the patched settings; a failed or empty update leaves the read unchanged |
| Guard.ExtractToken | Backend/src/middlewares/authMiddleware.js:4-13 | from a truthy header the token is the second space-separated word, taken exactly when that word exists and is non-empty; it has no spaces; a falsy header gives none |
| Guard.VerifyToken | Backend/src/middlewares/authMiddleware.js:3-23 | `next` is reached exactly when a token is present and verifies under the access secret, with `req.user` the decoded payload; no token gives 401 "No token provided"; a token that fails verification gives 401 "Invalid token" |
| Guard.AuthorizationHeader | Frontend/sublyy-frontend/src/services/api.jsx:10-12 | a header is sent exactly when the stored token is truthy |
| Guard.ExtractAfterAnyScheme | Backend/src/middlewares/authMiddleware.js:9 | the first word is not checked: any scheme followed by a space and a token yields the token |
| Guard.ExtractSecondWord | Backend/src/middlewares/authMiddleware.js:9 | with more words after the token, the second word is still the token |
| Guard.HeaderRoundTrip | Frontend/sublyy-frontend/src/services/api.jsx:12 | the client's "Bearer " header parses back to its token whenever the token has no space |
| Guard.MalformedHeaders | Backend/src/middlewares/authMiddleware.js:9-13 | "Bearer" alone and "Bearer" followed by two spaces carry no token |
| Guard.GuardAcceptsAccessTokens | Backend/src/middlewares/authMiddleware.js:15-22 | an access token from the system lets its user through; a refresh token is refused when the secrets differ |
| Ledger.AddSubscription | Backend/src/controllers/subscriptionController.js:3-18 | 400 with nothing stored exactly when one of the six required fields is falsy; 500 with nothing stored exactly when the guard passes but the document is rejected; otherwise 201 with the document built from the body appended |
| Ledger.ZeroPriceKinds | Backend/src/controllers/subscriptionController.js:8-12 | a numeric price 0 is refused as missing, while the text "0" passes the guard and is stored as the price 0 |
| Ledger.Owned | Backend/src/controllers/subscriptionController.js:40 | `find({ user })` keeps exactly the requester's records |
| Ledger.OwnedCounts | Backend/src/controllers/subscriptionController.js:40 | each of the requester's records appears as many times as it is stored, and no other record appears |
| Ledger.OwnedAppend | Backend/src/controllers/subscriptionController.js:40 | the query distributes over concatenation, so stored order is kept |
| Ledger.ListSubscriptions | Backend/src/controllers/subscriptionController.js:20-31 | the requester's records, each exactly once, in non-decreasing payment date order |
| Ledger.MonthlyAmount | Backend/src/controllers/subscriptionController.js:45-57 | the monthly amount is the price (0 if missing) times 1/12 for "yearly", 4.33 for "weekly" and 1 for any other cycle; it is never negative for a non-negative price |
| Ledger.CategoryKey | Backend/src/controllers/subscriptionController.js:62 | the bucket name is never empty: a missing category becomes "Other", any other is kept |
| Ledger.TotalAppend | Backend/src/controllers/subscriptionController.js:44-57 | the total of two runs of records is the sum of their totals |
| Ledger.AddTo | Backend/src/controllers/subscriptionController.js:63-78 | adding to a bucket appends the category only when it is new, adds the amount to the sum, and changes only that category's amount |
| Ledger.Distribute | Backend/src/controllers/subscriptionController.js:60-78 | at most one bucket per record, and no bucket exactly when there is no record |
| Ledger.FirstOccurrences | Backend/src/controllers/subscriptionController.js:81-84 | the distinct keys, each once |
| Ledger.DistributeCategories | Backend/src/controllers/subscriptionController.js:60-84 | the buckets are the distinct category keys in first-occurrence order |
| Ledger.DistributeSum | Backend/src/controllers/subscriptionController.js:44-78 | before rounding the bucket amounts add up to the total |
| Ledger.DistributeAmounts | Backend/src/controllers/subscriptionController.js:66-78 | each bucket holds the monthly spend of its category |
| Ledger.AnalyticsBuckets | Backend/src/controllers/subscriptionController.js:60-84 | every category of the requester's records has exactly one bucket, and no other bucket exists |
| Ledger.Analytics | Backend/src/controllers/subscriptionController.js:33-96 | the report's buckets add up to its total, every category's amount is its monthly spend among the requester's records, and there are no buckets exactly when the requester has none |
| Ledger.AnalyticsAmounts | Backend/src/controllers/subscriptionController.js:44-84 | each bucket's amount is its category's spend, and the amounts sum to the total |
| Ledger.AnalyticsEmpty | Backend/src/controllers/subscriptionController.js:44-84 | with no records the report is total 0 and no buckets |
| Ledger.AnalyticsIgnoresDates | Backend/src/controllers/subscriptionController.js:38-40 | payment dates do not affect the report: every record is counted |
| Ledger.EmptyCategoryIsOther | Backend/src/controllers/subscriptionController.js:62 | for every ledger the "Other" bucket holds the monthly spend of exactly the records whose category is missing or "Other", and no bucket has an empty name |
| Ledger.AnalyticsExample | Backend/src/controllers/subscriptionController.js:33-96 | a worked report: three records of the requester give total 32.65 and buckets Cloud 22.65, Music 10 |
| CategoryMap.AnalyticsAsWritten | Backend/src/controllers/subscriptionController.js:60-84 | the handler as written fails exactly when some category names an inherited `Object.prototype` method |
| CategoryMap.AsWrittenAgreesOnOrdinaryNames | Backend/src/controllers/subscriptionController.js:60-84 | for all other category names the code as written gives the intended report |
| CategoryMap.InheritedNameFails | Backend/src/controllers/subscriptionController.js:62-84 | category "constructor" makes the handler answer 500 |
| CategoryMap.ProtoBucketDropped | Backend/src/controllers/subscriptionController.js:62-84 | category "__proto__" is counted in the total but gets no bucket |
| PasswordMeter.Strength | Frontend/sublyy-frontend/src/components/ui/PasswordStrengthMeter.jsx:4-11 | the score is the number of the four criteria the password meets, so at most 4, and 4 exactly when all hold |
| PasswordMeter.OneMoreCriterion | Frontend/sublyy-frontend/src/components/ui/PasswordStrengthMeter.jsx:6-9 | meeting one more criterion, the others unchanged, adds exactly one point |
| PasswordMeter.StrengthZero | Frontend/sublyy-frontend/src/components/ui/PasswordStrengthMeter.jsx:4-11 | the score is 0 exactly for passwords shorter than 8 made of a-z only; the empty password is one |
| PasswordMeter.StrengthMonotone | Frontend/sublyy-frontend/src/components/ui/PasswordStrengthMeter.jsx:6-9 | typing more characters never lowers the score |
| PasswordMeter.ColorClass | Frontend/sublyy-frontend/src/components/ui/PasswordStrengthMeter.jsx:14-22 | the default colour is used exactly outside scores 0 to 4, and the unfilled grey exactly for 0 |
| PasswordMeter.MessageText | Frontend/sublyy-frontend/src/components/ui/PasswordStrengthMeter.jsx:24-32 | a message exists exactly for the scores 0 to 4 |
| PasswordMeter.LabelsIdentifyScore | Frontend/sublyy-frontend/src/components/ui/PasswordStrengthMeter.jsx:14-34 | each reachable score has its own colour and message; the default branches are never taken; 0 is "Very Weak" |
| PasswordMeter.Bars | Frontend/sublyy-frontend/src/components/ui/PasswordStrengthMeter.jsx:39-45 | four segments, each either the score's colour or grey, with the coloured ones first |
| PasswordMeter.BarsFilled | Frontend/sublyy-frontend/src/components/ui/PasswordStrengthMeter.jsx:39-45 | exactly `strength` of the four segments take the score's colour, and the other `4 - strength` stay grey |
| Navbar.ShowNavbar | Frontend/sublyy-frontend/src/components/ui/NavbarWrapper.jsx:8-24 | the navbar shows exactly when the path is neither "/", "/login" nor "/signup" and has none of the four section prefixes |
| Navbar.HiddenUnderSections | Frontend/sublyy-frontend/src/components/ui/NavbarWrapper.jsx:16-21 | any path with a section prefix is hidden, "/dashboardx" included |
| Navbar.AuthPagesMatchedExactly | Frontend/sublyy-frontend/src/components/ui/NavbarWrapper.jsx:8-13 | "/login" and "/signup" are hidden but anything longer, "/login/" included, shows the navbar |
| Navbar.OtherPagesShown | Frontend/sublyy-frontend/src/components/ui/NavbarWrapper.jsx:24 | other pages such as "/about" show the navbar |
| AddForm.Set | Frontend/sublyy-frontend/src/pages/Dashboard/AddSubscription.jsx:103 | `{ ...prev, [name]: value }` sets the named field and keeps every other field |
| AddForm.SetLaws | Frontend/sublyy-frontend/src/pages/Dashboard/AddSubscription.jsx:103 | writing back a field's own value changes nothing; of two writes to a field the last wins |
| AddForm.InitialFormFields | Frontend/sublyy-frontend/src/pages/Dashboard/AddSubscription.jsx:32-42 | the initial form has billing cycle "monthly", colour "#6366f1", and "" elsewhere |
| AddForm.CatalogCategoriesOffered | Frontend/sublyy-frontend/src/pages/Dashboard/AddSubscription.jsx:8-17 | every catalogue suggestion's category is one the category select offers |
| AddForm.Filter | Frontend/sublyy-frontend/src/pages/Dashboard/AddSubscription.jsx:144-146 | the filter keeps exactly the matching entries |
| AddForm.FilterAppend | Frontend/sublyy-frontend/src/pages/Dashboard/AddSubscription.jsx:144-146 | the filter distributes over concatenation, so list order is kept |
| AddForm.FilterAllOrNothing | Frontend/sublyy-frontend/src/pages/Dashboard/AddSubscription.jsx:144-146 | a list of matches is kept whole; a list with no match gives nothing |
| AddForm.Suggestions | Frontend/sublyy-frontend/src/pages/Dashboard/AddSubscription.jsx:143-147 | an empty input gives no suggestions; otherwise exactly the catalogue entries whose lowered name contains the lowered input |
| AddForm.SuggestionExample | Frontend/sublyy-frontend/src/pages/Dashboard/AddSubscription.jsx:45-90 | "NET" suggests Netflix: matching ignores letter case |
| AddForm.HandleChange | Frontend/sublyy-frontend/src/pages/Dashboard/AddSubscription.jsx:101-104 | only the named field changes |
| AddForm.HandleColorChange | Frontend/sublyy-frontend/src/pages/Dashboard/AddSubscription.jsx:106-108 | only the colour changes |
| AddForm.HandleNameChange | Frontend/sublyy-frontend/src/pages/Dashboard/AddSubscription.jsx:110-115 | the input text and the form's name both become the typed value; the list opens; no other field changes |
| AddForm.FocusName | Frontend/sublyy-frontend/src/pages/Dashboard/AddSubscription.jsx:179 | focusing the name input opens the list and changes nothing else |
| AddForm.HandleSuggestionClick | Frontend/sublyy-frontend/src/pages/Dashboard/AddSubscription.jsx:117-125 | choosing a suggestion sets the name and category and no other field, shows the name, and closes the list |
| AddForm.VisibleSuggestions | Frontend/sublyy-frontend/src/pages/Dashboard/AddSubscription.jsx:185 | the dropdown is non-empty only while open and with typed text |
| AddForm.NameInSync | Frontend/sublyy-frontend/src/pages/Dashboard/AddSubscription.jsx:101-125 | the handlers keep the name input and the form's name equal, and a chosen suggestion closes the dropdown |
| CategoryChart.GradientOf | Frontend/sublyy-frontend/src/components/charts/SubscriptionCategoryChart.jsx:18-30 | every bar gets one of the eight gradients |
| CategoryChart.GradientCycle | Frontend/sublyy-frontend/src/components/charts/SubscriptionCategoryChart.jsx:18-30 | gradients repeat every eight bars, and any eight consecutive bars have distinct gradients |
| CategoryChart.SortedData | Frontend/sublyy-frontend/src/components/charts/SubscriptionCategoryChart.jsx:15 | the bars are a permutation of the data in non-increasing amount order |
| CategoryChart.SortedDataStable | Frontend/sublyy-frontend/src/components/charts/SubscriptionCategoryChart.jsx:15 | buckets with equal amounts keep their input order |
| CategoryChart.Render | Frontend/sublyy-frontend/src/components/charts/SubscriptionCategoryChart.jsx:6-88 | missing or empty data shows the placeholder; otherwise one bar per bucket, largest first, bar `i` with gradient `i mod 8` |
| CategoryChart.ChartOfAnalytics | Frontend/sublyy-frontend/src/components/charts/SubscriptionCategoryChart.jsx:6-12 | the chart of a report is the placeholder exactly when the requester has no subscriptions |
| Session.InitUser | Frontend/sublyy-frontend/src/context/authContext.jsx:7-19 | absent, "" or "undefined" give no user and leave storage alone; unparsable text gives no user and removes the key; parsable text gives the parsed value and leaves storage alone; no other key is touched |
| Session.InitToken | Frontend/sublyy-frontend/src/context/authContext.jsx:21-23 | the stored token, or "" when there is none |
| Session.HandleLogin | Frontend/sublyy-frontend/src/context/authContext.jsx:42-47 | user and token go into state and storage; a missing user is stored as "undefined"; other keys are kept |
| Session.HandleLogout | Frontend/sublyy-frontend/src/context/authContext.jsx:49-59 | user and token are cleared from state and storage, whatever the server answers |
| Session.MountRefresh | Frontend/sublyy-frontend/src/context/authContext.jsx:25-40 | without a token nothing happens; a failed refresh logs out; a successful one replaces only the token |
| Session.LoginThenReload | Frontend/sublyy-frontend/src/context/authContext.jsx:7-23 | a reload after login restores the same user and token, a missing user included |
| Session.LogoutThenReload | Frontend/sublyy-frontend/src/context/authContext.jsx:49-59 | a reload after logout has no user and no token, and the protected routes are closed |
| Session.CorruptUserDropped | Frontend/sublyy-frontend/src/context/authContext.jsx:12-18 | corrupt user text is removed, and the next reload sees no user |
| Session.MountIdempotent | Frontend/sublyy-frontend/src/context/authContext.jsx:7-23 | a second page load over what the first left behind gives the same client, and only the user key may have changed |
| Session.ProtectedAfterLogin | Frontend/sublyy-frontend/src/routes/ProtectedRoutes.jsx:9 | the protected routes open exactly with a non-empty token: after a login with one, and after the mount refresh only if it succeeded |
| Flows.SignUpThenLogin | Backend/src/controllers/authController.js:35-87 | after a successful signup, a login with the same email and password succeeds |
| Flows.GoogleAccountPasswordLogin | Backend/src/config/passport.js:25 | a Google-created account answers a password login with 500 |
| Flows.RefreshIssuesAccessToken | Backend/src/controllers/authController.js:94-105 | the refresh cookie buys an access token for the same user, which the guard accepts |
| Flows.RefreshRejectsAccessToken | Backend/src/controllers/authController.js:99-100 | an access token sent as the refresh cookie gets 403 when the secrets differ |
| Flows.LoginReloadRefresh | Frontend/sublyy-frontend/src/context/authContext.jsx:25-47 | after a password login and a reload the client has no user object, stays signed in, and holds a token for the same user |
| Flows.MountWithoutCookieLogsOut | Frontend/sublyy-frontend/src/context/authContext.jsx:31-34 | without a refresh cookie the mount refresh fails and logs the client out |
| Flows.LogoutThenRefresh | Backend/src/controllers/authController.js:94-110 | after logout the browser has no refresh cookie, so the next refresh answers 401 |
| Flows.LoginThenRefresh | Backend/src/controllers/authController.js:83-103 | the cookie a login sets buys, on refresh, the access token of the user who logged in |

## Left out

- bcrypt and JWT internals are abstract functions with the properties of `Crypto.Sound`. Token expiry and the clock are not modelled, so a token never expires.
- Floating point: amounts are `real`, and 4.33 is the exact rational 433/100. The `toFixed(2)` and `parseFloat` rounding of the total and of each bucket is not modelled. Neither are the clock-derived month and year of the report.
- Ledger.AnalyticsBuckets: `Object.entries` lists integer-like keys such as "2024" first, in numeric order. The model keeps first-occurrence order for every key, so it is exact only for non-numeric category names.
- Ledger.DistributeCategories: the same first-occurrence order, with the same restriction to non-numeric category names.
- CategoryMap.AnalyticsAsWritten: the same first-occurrence order, with the same restriction to non-numeric category names.
- Mongoose machinery: connections and query execution are not modelled. Of the casts, only the price's is: a number, or a string read as a numeral. Other fields of the wrong type, such as an unparsable date, are outside the model. The `min`/`max` options on the username are not length validators, so no length bound is modelled.
- SubscriptionModel.CastNumber: a string price is read as a plain decimal numeral: an optional sign, digits, and an optional point with digits. `Number` also accepts surrounding spaces, exponents, `0x`/`0o`/`0b` prefixes and "Infinity"; the model treats those as cast errors (500).
- SubscriptionModel.FromInput: the string fields of the body take text only. A number sent as name, category, colour or another string field is not modelled; Mongoose would store its text. For those fields `null` and a missing value are not told apart, because the guard and the readers treat them alike.
- Auth.SignUp: request fields are strings, with "" standing for a missing one. A missing password makes `bcrypt.hash` throw and the handler answer 500; the model instead hashes "" with the abstract hash, so this path is not modelled separately.
- Auth.Login: the `catch` branch only logs and sends no response. The model has no reply for it, and the abstract crypto functions never throw.
- UserSettings.ApplyPatch: settings keys the schema does not declare are dropped by the database and are not modelled. Neither is a `settings` value that is not an object.
- Express wiring is not modelled: routes, cookies, CORS and the server. The server mounts only the auth routes, and the `/protected` route runs its handler before `verifyToken`, so it is effectively unguarded. The model states the guard's own behaviour and does not claim any route uses it.
- The Socket.IO transport, the connection registry and the client's settings context are not modelled. Only the choice of target connection is, and the emitting server object is assumed present.
- Text.Lower: `toLowerCase` is modelled on ASCII letters only. Other characters are unchanged.
- The password meter's text colour (`replace('bg-', 'text-')`) and every other piece of presentation are left out.
- The remaining pages, layouts, the currency display and the signup/login form plumbing are not part of this model.

## Findings

| source | as written | input that shows it | evidently intended | confidence | as-written member | corrected member |
|---|---|---|---|---|---|---|
| Backend/src/controllers/subscriptionController.js:60-84 | `categoryMap` is a plain `{}`, so a category named like an `Object.prototype` member does not start out missing. For "constructor", `categoryMap[cat] += amount` concatenates onto the inherited function, and `value.toFixed` then throws. For "__proto__", the assignment goes to the prototype accessor and the bucket is lost. | one subscription with category "constructor" (answer 500); one with category "__proto__" and price 5 (total 5, no bucket) | every category gets its own bucket holding its monthly spend, and the buckets sum to the total | not executed | CategoryMap.AnalyticsAsWritten, CategoryMap.InheritedNameFails, CategoryMap.ProtoBucketDropped | Ledger.Analytics, Ledger.AnalyticsAmounts |
