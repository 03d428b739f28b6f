# RentZW client core in Dafny

A model of the RentZW rental-marketplace web client: its browser-storage session, the mock
account store that stands in for a backend, the authentication provider, and the pure
logic of the listing components (image picker, search form, property card, header, landlord
dashboard, home page). There is no server. Accounts, tokens and the signed-in user live in the
browser's `localStorage`, modelled as a `map<string, string>` held by a `LocalStorage` object.

The model follows the TypeScript files file by file:

| file | module | form |
|---|---|---|
| `src/lib/auth.ts` | `Auth` (auth.dfy) | storage reads are functions of the map; writes are methods on `LocalStorage`; validators are functions. `validatePassword` is a method with the source's five sequential checks |
| `src/lib/mockAuth.ts` | `MockAuth` (mock_auth.dfy) | methods over `LocalStorage`, specified by functions on the stored map |
| `src/contexts/AuthContext.tsx` | `AuthContext` (auth_context.dfy) | class `AuthProvider` with the `user` and `isLoading` state, updated in place |
| `src/components/property/ImageUpload.tsx` | `ImageUpload` (image_upload.dfy) | class `ImageUploader` holding the photo list; the list operations are specified by functions |
| `src/components/property/PropertySearch.tsx` | `PropertySearch` (property_search.dfy) | class `SearchForm` holding the form values and chosen amenities; `onSubmit`'s clean-up loop is a `while` loop |
| `src/components/property/PropertyCard.tsx` | `PropertyCard` (property_card.dfy) | functions |
| `src/components/layout/Header.tsx` | `Header` (header.dfy) | functions and lemmas |
| `src/components/dashboard/LandlordDashboard.tsx` | `LandlordDashboard` (landlord_dashboard.dfy) | functions and lemmas |
| `src/pages/Home.tsx` | `Home` (home.dfy) | functions and lemmas |

Helper modules:
- `Wrappers`: `Option` and `Result`.
- `Ascii`: character classes, case mapping and decimal numerals.
- `Seqs`: `find`, `filter` and `some` as `FindFirst`, `Filter` and `Any`, with their laws.
- `Codec`: a serialiser and parser for lists of strings, standing in for `JSON.stringify` and `JSON.parse`, with its round trip proved.
- `Types`: the records of `src/types/index.ts` that the core uses.
- `BrowserStorage`: `localStorage`.

Random ids, clock readings, object URLs and the outcome of API calls are parameters of the
operations that use them.

Where the repository's described behaviour and the code disagree, the model follows the code:
- The description says that the application seeds the demo accounts on start. `AuthProvider`'s start-up (`initializeAuth`) never calls `initializeMockUsers`, so `InitializeAuth` does not seed. Seeding is `MockAuth.InitializeMockUsers`, on its own.
- The description calls a user's role immutable after creation. `updateUser` spreads any `Partial<User>`, so `Merge` lets a patch change `userType`.

## Model

| member | source | states |
|---|---|---|
| Auth.GetUser | src/lib/auth.ts:23-32 | no user when the slot is missing, empty or unparsable; for non-empty content that parses, exactly the parsed user |
| Auth.GetAuthToken | src/lib/auth.ts:7-9 | null exactly when nothing is stored under the token key, otherwise the stored text; `SetAuthToken` and `ClearAuth` pin what it reads afterwards |
| Auth.GetRefreshToken | src/lib/auth.ts:15-17 | null exactly when nothing is stored under the refresh-token key, otherwise the stored text; `SetRefreshToken` and `ClearAuth` pin what it reads afterwards |
| Auth.SetAuthToken | src/lib/auth.ts:11-13 | only the token slot changes, and reading it gives the token |
| Auth.SetRefreshToken | src/lib/auth.ts:19-21 | only the refresh-token slot changes, and reading it gives the token |
| Auth.SetUser | src/lib/auth.ts:34-36 | only the user slot changes, and `getUser` then returns exactly that user |
| Auth.SetThenGetUser | src/lib/auth.ts:23-36 | storing a user and reading it back gives the same user |
| Auth.ClearAuth | src/lib/auth.ts:38-42 | the three session keys are removed, every other key and value is kept, and all three getters return null |
| Auth.IsAuthenticated | src/lib/auth.ts:44-46 | true exactly when a non-empty token is stored |
| Auth.IsLandlord | src/lib/auth.ts:48-51 | true exactly when the stored user parses and is a landlord; false with no user |
| Auth.IsTenant | src/lib/auth.ts:53-56 | true exactly when the stored user is a tenant; never true together with `IsLandlord` |
| Auth.ValidatePassword | src/lib/auth.ts:59-83 | the messages of the broken rules in checking order; at most five; none exactly when the password has 8+ characters, an upper-case letter, a lower-case letter, a digit and a special character |
| Auth.CheckRule | src/lib/auth.ts:62-80 | one check appends its message exactly when the password breaks that rule |
| Auth.MessagesStep | src/lib/auth.ts:62-80 | checking one more rule extends the message list by that rule's message exactly when it is broken |
| Auth.FailedRulesUnfold | src/lib/auth.ts:59-83 | the broken rules are the five rules taken one by one in source order |
| Auth.FailedRulesMembers | src/lib/auth.ts:59-83 | a rule is reported exactly when the password does not satisfy it |
| Auth.SatisfiesAllMeaning | src/lib/auth.ts:62-80 | satisfying all five regular expressions is the stated password policy |
| Auth.FailedRulesMeaning | src/lib/auth.ts:59-83 | at most five broken rules, each exactly when unsatisfied, and none exactly when the password is strong |
| Auth.RuleMessageInjective | src/lib/auth.ts:63-79 | distinct rules have distinct messages |
| Auth.MessagesNamesRules | src/lib/auth.ts:59-83 | a message is in the list exactly when its rule is |
| Auth.PasswordMessagesNameBrokenRules | src/lib/auth.ts:59-83 | a rule's message is reported exactly when the password breaks that rule |
| Auth.ValidateEmail | src/lib/auth.ts:86-89 | true exactly when the text is in the language of `^[^\s@]+@[^\s@]+\.[^\s@]+$` |
| Auth.EmailShapeMatchesPattern | src/lib/auth.ts:86-89 | the scanning check (first `@`, no whitespace, no second `@`, an inner `.` after it) accepts exactly the regular expression's language |
| Auth.EmailShapeIsPattern | src/lib/auth.ts:86-89 | every text the scanning check accepts matches the regular expression |
| Auth.PatternIsEmailShape | src/lib/auth.ts:86-89 | every text matching the regular expression passes the scanning check |
| Auth.PhonePatternMeaning | src/lib/auth.ts:94 | the phone pattern holds exactly for `+263` or `0` followed by nine digits |
| Auth.ValidatePhoneNumber | src/lib/auth.ts:92-96 | true exactly when the input without whitespace is `+263` or `0` followed by nine digits |
| Auth.PhoneIgnoresWhitespace | src/lib/auth.ts:95 | inserting a whitespace character anywhere never changes the verdict |
| Types.ParseSerializeUser | src/lib/auth.ts:28-35 | parsing a serialised user gives it back |
| Types.SerializeUserNonEmpty | src/lib/auth.ts:25 | a serialised user is never the empty string that `getUser` reads as "no user" |
| Codec.DecodeEncodeList | src/lib/mockAuth.ts:22-30 | parsing a serialised list of strings gives back the same list |
| MockAuth.ParseSerializeUsers | src/lib/mockAuth.ts:19-31 | the account list written by `saveUsers` reads back unchanged |
| MockAuth.GetStoredUsers | src/lib/mockAuth.ts:19-26 | no accounts when the key is missing, empty or its content does not parse; for non-empty content that parses, exactly the parsed accounts |
| MockAuth.StoreWithUsers | src/lib/mockAuth.ts:29-31 | `getStoredUsers` then returns exactly the saved list, and no other key changes |
| MockAuth.SaveUsers | src/lib/mockAuth.ts:29-31 | the storage becomes `StoreWithUsers` of the old storage |
| MockAuth.Sanitize | src/lib/mockAuth.ts:76-84 | the public user copies every stored field but the password |
| MockAuth.LoginMatch | src/lib/mockAuth.ts:108-112 | the first account whose email matches ignoring case and whose password is equal; none when no account matches |
| MockAuth.MockSignup | src/lib/mockAuth.ts:39-95 | an email already taken (ignoring case) fails with storage unchanged; otherwise the new verified account is appended and saved, and the sanitised user is returned with the tokens |
| MockAuth.MockLogin | src/lib/mockAuth.ts:98-138 | succeeds exactly when some account matches the credentials, returning the first match's sanitised user; otherwise fails with invalid credentials |
| MockAuth.MockGetProfile | src/lib/mockAuth.ts:141-151 | not authenticated when the current-user key is missing or empty; a malformed profile when its content does not parse; for content that parses, success with exactly the parsed user |
| MockAuth.SeededStore | src/lib/mockAuth.ts:154-184 | an empty account store gets the two demo accounts and every other key is kept; a non-empty one is left as it is |
| MockAuth.InitializeMockUsers | src/lib/mockAuth.ts:154-184 | the storage becomes `SeededStore` of the old storage |
| MockAuth.SeedingIdempotent | src/lib/mockAuth.ts:157-183 | seeding twice is seeding once |
| MockAuth.SignupThenLogin | src/lib/mockAuth.ts:52-127 | after a signup, logging in with the same email and password finds the new account, and the returned user is verified with the signup's details |
| MockAuth.SignupKeepsEmailsUnique | src/lib/mockAuth.ts:52-73 | if no two accounts share an email ignoring case, a successful signup keeps it so |
| MockAuth.UpperCasedEmailIsTaken | src/lib/mockAuth.ts:52-54 | an existing email in upper case counts as taken |
| MockAuth.SessionClearKeepsAccounts | src/lib/mockAuth.ts:4-5 | removing session keys other than the account-store key leaves the stored accounts unchanged |
| AuthContext.FailureText | src/contexts/AuthContext.tsx:101-103 | the server's message when there is a non-empty one, otherwise the fallback; never blank when the fallback is not |
| AuthContext.FailureToastNeverBlank | src/contexts/AuthContext.tsx:101-127 | the login and signup error toasts are never blank |
| AuthContext.Merge | src/contexts/AuthContext.tsx:147 | each field is the patch's value when the patch has one, otherwise the old value |
| AuthContext.MergeEmptyPatch | src/contexts/AuthContext.tsx:147 | an empty patch changes nothing |
| AuthContext.MergeIdempotent | src/contexts/AuthContext.tsx:147 | applying the same patch twice is applying it once |
| AuthContext.MergeCombine | src/contexts/AuthContext.tsx:147 | two successive patches are one combined patch, the later value winning |
| AuthContext.AuthProvider.constructor | src/contexts/AuthContext.tsx:53-54 | no user, loading |
| AuthContext.AuthProvider.IsAuthenticated | src/contexts/AuthContext.tsx:56 | true exactly when there is a user in state and a non-empty stored token |
| AuthContext.AuthProvider.InitializeAuth | src/contexts/AuthContext.tsx:60-80 | without a token and a stored user nothing changes; with both, a confirmed profile replaces the stored user and the state, and a failed check clears the session and the user; loading ends; the state stays consistent with storage |
| AuthContext.AuthProvider.StartSession | src/contexts/AuthContext.tsx:95-98 | the three session slots are written and the user is set; authenticated exactly when the token is non-empty |
| AuthContext.AuthProvider.Login | src/contexts/AuthContext.tsx:85-108 | a success starts the session and greets the user by name; a failure changes neither storage nor user and shows the server's message or "Login failed"; loading ends |
| AuthContext.AuthProvider.Signup | src/contexts/AuthContext.tsx:110-132 | a success starts the session with the welcome toast; a failure changes nothing and shows the server's message or "Signup failed"; loading ends |
| AuthContext.AuthProvider.Logout | src/contexts/AuthContext.tsx:134-143 | the session keys are removed, the user is cleared, and the provider is no longer authenticated |
| AuthContext.AuthProvider.UpdateUser | src/contexts/AuthContext.tsx:145-151 | with no user nothing changes; otherwise the merged user is stored and becomes the state |
| ImageUpload.ValidateFile | src/components/property/ImageUpload.tsx:33-59 | checks in source order: "not an image" exactly without the `image/` prefix; "too large" exactly for an image over `maxSize` MB, whatever its format; "unsupported format" exactly for an image within the size limit whose type is not one of the four; accepted otherwise |
| ImageUpload.RejectionToasts | src/components/property/ImageUpload.tsx:33-59 | one error toast per rejected file: toasts and accepted files together number the batch |
| ImageUpload.NewImagesAsWritten | src/components/property/ImageUpload.tsx:63-68 | as written: one photo per accepted file, with that file's id and contents, each primary exactly when the picker held no photo before the batch |
| ImageUpload.NewImages | src/components/property/ImageUpload.tsx:63-68 | corrected (see ## Findings): one photo per accepted file, with that file's id and contents, primary exactly when it is the first photo of a first batch |
| ImageUpload.NewImagesAsWrittenPrimaryCount | src/components/property/ImageUpload.tsx:63-68 | as written, a first batch of n accepted files adds n primary photos, and a later batch none |
| ImageUpload.NewImagesPrimaryCount | src/components/property/ImageUpload.tsx:63-68 | corrected (see ## Findings): a non-empty first batch adds one primary photo, and a later batch none |
| ImageUpload.AsWrittenFirstBatchHasTwoPrimaries | src/components/property/ImageUpload.tsx:63-68 | as written, a first batch of two acceptable files gives two primary photos |
| ImageUpload.AddedAsWritten | src/components/property/ImageUpload.tsx:79-85 | as written: the old photos followed by one photo per accepted file |
| ImageUpload.Added | src/components/property/ImageUpload.tsx:79-85 | corrected (see ## Findings): the old photos followed by one photo per accepted file |
| ImageUpload.AddedAsWrittenOnePrimary | src/components/property/ImageUpload.tsx:63-85 | as written, the primary count grows by the number of accepted files exactly when the picker was empty, so "exactly one primary" survives a batch exactly when the picker held a photo or at most one file is accepted |
| ImageUpload.AddedKeepsOnePrimary | src/components/property/ImageUpload.tsx:79-85 | corrected (see ## Findings): adding any batch keeps "no photo or exactly one primary" |
| ImageUpload.AddedKeepsIdsUnique | src/components/property/ImageUpload.tsx:79-85 | adding a batch with fresh ids keeps the ids distinct, both as written and corrected |
| ImageUpload.Removed | src/components/property/ImageUpload.tsx:124-139 | as many photos as there are photos with another id; `RemovedHandsOverPrimary`, `RemovedLikeKept`, `RemovedIds` and `RemovedKeepsOnePrimary` state which photos stay and which one is primary |
| ImageUpload.RemovedHandsOverPrimary | src/components/property/ImageUpload.tsx:124-139 | when the removed photo was primary and photos remain, the first remaining photo becomes primary and the rest keep their flags; otherwise the remaining photos are exactly the kept ones, flags unchanged; an id no photo has leaves the list unchanged |
| ImageUpload.RemovedLikeKept | src/components/property/ImageUpload.tsx:130-135 | removal keeps the filtered photos, changing at most their primary flag |
| ImageUpload.RemovedIds | src/components/property/ImageUpload.tsx:130 | removal drops exactly the photos with that id |
| ImageUpload.CountSetHead | src/components/property/ImageUpload.tsx:133-135 | marking the first of the kept photos primary, when none was, gives exactly one |
| ImageUpload.RemovedKeepsOnePrimary | src/components/property/ImageUpload.tsx:124-139 | removal keeps "no photo or exactly one primary" |
| ImageUpload.RemovedKeepsIdsUnique | src/components/property/ImageUpload.tsx:130 | removal keeps the ids distinct |
| ImageUpload.WithPrimary | src/components/property/ImageUpload.tsx:141-145 | every photo is kept, changing at most its primary flag, and a photo is primary exactly when its id is the chosen one |
| ImageUpload.WithPrimaryCount | src/components/property/ImageUpload.tsx:142-145 | the number of primary photos is the number of photos with that id |
| ImageUpload.UniqueIdCount | src/components/property/ImageUpload.tsx:142-145 | with distinct ids, each held id occurs exactly once |
| ImageUpload.WithPrimaryOnePrimary | src/components/property/ImageUpload.tsx:141-149 | choosing a held photo leaves exactly one primary, that photo |
| ImageUpload.ImageUploader.constructor | src/components/property/ImageUpload.tsx:23-30 | the limits and initial photos are those given |
| ImageUpload.ImageUploader.HandleFiles | src/components/property/ImageUpload.tsx:63-89 | as written: a batch over the limit is refused whole with one toast; otherwise `AddedAsWritten` of the old photos, one toast per rejection, and the change reported only when something was accepted; the primary count grows by the accepted files when the picker was empty, and the invariant is kept when the picker held a photo or at most one file is accepted |
| ImageUpload.ImageUploader.HandleFilesCorrected | src/components/property/ImageUpload.tsx:63-89 | corrected (see ## Findings): the same outcomes with `Added`, and the picker's invariant is kept for every batch with fresh ids |
| ImageUpload.ImageUploader.HandleDrop | src/components/property/ImageUpload.tsx:98-110 | a drop on a disabled picker, or an empty drop, changes nothing and raises no toast; otherwise the photos, toasts and change report of the as-written `HandleFiles` |
| ImageUpload.ImageUploader.RemoveImage | src/components/property/ImageUpload.tsx:124-139 | the photos become `Removed` of the old ones, so the first remaining photo inherits the primary flag as `RemovedHandsOverPrimary` states; the invariant is kept |
| ImageUpload.ImageUploader.SetPrimaryImage | src/components/property/ImageUpload.tsx:141-149 | the photos become `WithPrimary` of the old ones; choosing a held id keeps the invariant |
| PropertySearch.Cleaned | src/components/property/PropertySearch.tsx:64-82 | no placeholder survives; every other field is kept unchanged; amenities are present exactly when some are chosen, as the chosen list |
| PropertySearch.AmenityChange | src/components/property/PropertySearch.tsx:54-62 | checking appends the amenity; unchecking is `RemoveAll`, which removes every copy, keeps the count of every other amenity and, by `Seqs.RemoveAllKeepsOrder`, their order |
| PropertySearch.CheckThenUncheck | src/components/property/PropertySearch.tsx:54-62 | checking then unchecking a new amenity restores the list |
| PropertySearch.LeadingDigits | src/components/property/PropertySearch.tsx:238 | the longest prefix of digits |
| PropertySearch.ParseInt | src/components/property/PropertySearch.tsx:238 | NaN exactly for text that does not start with a digit; otherwise a non-negative number |
| PropertySearch.BedroomsChoiceAsWritten | src/components/property/PropertySearch.tsx:236-239 | as written: agrees with the corrected handler on every option except "any" |
| PropertySearch.BedroomsChoice | src/components/property/PropertySearch.tsx:236-259 | corrected (see ## Findings): the "any" option, or no value, leaves bedrooms undefined |
| PropertySearch.AsWrittenAnyBedroomsIsSubmitted | src/components/property/PropertySearch.tsx:236-246 | as written, choosing "any" stores NaN, and the search submits `bedrooms: NaN` |
| PropertySearch.BedroomsChoiceSubmitted | src/components/property/PropertySearch.tsx:236-252 | with the corrected handler, "any" submits no bedroom filter, and "1" to "5" submit that number |
| PropertySearch.InactiveFormSubmitsNothing | src/components/property/PropertySearch.tsx:64-104 | a form with no active value and no amenity submits no filter |
| PropertySearch.ActiveValueIsSubmitted | src/components/property/PropertySearch.tsx:64-104 | an active field other than null is submitted unchanged |
| PropertySearch.NullActiveButDropped | src/components/property/PropertySearch.tsx:71-104 | a null field counts as active for the Clear button but is dropped from the search |
| PropertySearch.SearchForm.constructor | src/components/property/PropertySearch.tsx:37-52 | the chosen amenities start as the initial ones; a truthy initial city clears the suburb |
| PropertySearch.SearchForm.SetValue | src/components/property/PropertySearch.tsx:46-52 | the field takes the value; changing the city to a truthy value also clears the suburb |
| PropertySearch.SearchForm.ChooseBedrooms | src/components/property/PropertySearch.tsx:236-239 | bedrooms takes the corrected choice |
| PropertySearch.SearchForm.HandleAmenityChange | src/components/property/PropertySearch.tsx:54-62 | the amenity list becomes `AmenityChange` of the old one |
| PropertySearch.SearchForm.Submit | src/components/property/PropertySearch.tsx:64-85 | the key-by-key deletion loop submits exactly `Cleaned` of the form |
| PropertySearch.SearchForm.ClearFilters | src/components/property/PropertySearch.tsx:46-91 | the form resets to its initial values, with the suburb cleared when the reset changes the city to a non-empty one; no amenity stays chosen; an empty search is submitted |
| PropertySearch.SearchForm.HasActiveFilters | src/components/property/PropertySearch.tsx:93-104 | true exactly when an amenity is chosen or some value is not a placeholder; when false the search submits nothing |
| PropertyCard.PrimaryImage | src/components/property/PropertyCard.tsx:30-31 | the first primary image, or the first image when none is primary; none only for no images |
| PropertyCard.StatusBadgeVariant | src/components/property/PropertyCard.tsx:64-75 | secondary exactly for rented, outline exactly for pending, default otherwise |
| PropertyCard.ReplaceFirst | src/components/property/PropertyCard.tsx:78 | only the first occurrence is replaced; text without one is unchanged |
| PropertyCard.FormatPropertyType | src/components/property/PropertyCard.tsx:77-79 | the first character upper-cased, the first `_` of the rest made a space |
| PropertyCard.CapitalizeWords | src/components/property/PropertyCard.tsx:82 | the first character of every word is upper-cased and no other changes |
| PropertyCard.UpperCharKeepsClass | src/components/property/PropertyCard.tsx:82 | upper-casing keeps a character a word character or a non-word one |
| PropertyCard.CapitalizeWordsIdempotent | src/components/property/PropertyCard.tsx:82 | capitalising twice is capitalising once |
| PropertyCard.FormatFurnishingStatus | src/components/property/PropertyCard.tsx:81-83 | the label has the value's length |
| PropertyCard.NoUnderscore | src/components/property/PropertyCard.tsx:78 | a lower-case word has no `_` to replace |
| PropertyCard.OneWordLabel | src/components/property/PropertyCard.tsx:77-83 | a one-word value is shown capitalised by both formatters |
| PropertyCard.TwoWordLabel | src/components/property/PropertyCard.tsx:81-83 | `a_b` is shown as `A B` |
| PropertyCard.ReplaceJoiningUnderscore | src/components/property/PropertyCard.tsx:82 | the `_` joining two lower-case words is the one replaced |
| PropertyCard.CapitalizeTwoWords | src/components/property/PropertyCard.tsx:82 | two lower-case words separated by a space are both capitalised |
| PropertyCard.CountLabel | src/components/property/PropertyCard.tsx:166-173 | the bare word exactly for a count of one, the plural otherwise |
| PropertyCard.AmenitiesPreview | src/components/property/PropertyCard.tsx:183-195 | nothing for no amenities; otherwise the first three, and "+n more" exactly when there are more, with shown plus hidden equal to all |
| PropertyCard.HandleToggleFavorite | src/components/property/PropertyCard.tsx:38-62 | a toggle to the opposite state exactly for a signed-in tenant with a handler; "login" exactly when signed out; "tenants only" exactly for a signed-in non-tenant |
| Header.SplitOnSpace | src/components/layout/Header.tsx:51 | at least one piece, none holding a space |
| Header.JoinSplit | src/components/layout/Header.tsx:51 | joining the pieces with spaces gives back the name |
| Header.HeadsOfSplit | src/components/layout/Header.tsx:51-53 | the first characters of the pieces are the word initials of the name |
| Header.UserInitials | src/components/layout/Header.tsx:48-56 | "U" without a user or name; otherwise exactly the first two upper-cased word initials, or all of them when there are fewer |
| Header.BlankNameHasNoInitials | src/components/layout/Header.tsx:48-56 | the name " " gives empty initials, not "U" |
| Header.TwoWordInitials | src/components/layout/Header.tsx:48-56 | a first and last name give their two upper-cased initials |
| Header.TwoWordInitialChars | src/components/layout/Header.tsx:50-52 | the pieces of "first last" start with the two initials |
| Header.TwoWordWordInitials | src/components/layout/Header.tsx:50-52 | the word initials of "first last" are the two initials |
| Header.SpaceThenWord | src/components/layout/Header.tsx:50-52 | a space then a word contributes that word's initial |
| Header.InitialsOfWord | src/components/layout/Header.tsx:50-52 | a word contributes its initial only after a space or at the start |
| Header.NoInitialsInside | src/components/layout/Header.tsx:50-52 | inside a word there is no further initial |
| Header.InitialsConcat | src/components/layout/Header.tsx:50-52 | the initials of two joined texts are those of each part |
| Header.IsActivePath | src/components/layout/Header.tsx:44-46 | a link is highlighted exactly when its path equals the current one |
| Header.RoleLinksExclusive | src/components/layout/Header.tsx:86-100 | never both role links, and never two highlighted links |
| Header.RoleLinksFollowStoredUser | src/components/layout/Header.tsx:86-100 | Add Property appears only for a stored landlord and Favorites only for a stored tenant; neither when signed out |
| LandlordDashboard.TotalViews | src/components/dashboard/LandlordDashboard.tsx:134 | non-negative when every listing's views are |
| LandlordDashboard.TotalViewsAppend | src/components/dashboard/LandlordDashboard.tsx:134 | the total splits over concatenation |
| LandlordDashboard.TotalViewsBound | src/components/dashboard/LandlordDashboard.tsx:134 | every listing's views are within the total |
| LandlordDashboard.ComputeStats | src/components/dashboard/LandlordDashboard.tsx:132-137 | counts of listings and applications, five inquiries, and the view total equal to the sum of the listings' views (`TotalViews`), non-negative when every listing's views are |
| LandlordDashboard.ApplicationCount | src/components/dashboard/LandlordDashboard.tsx:374-376 | the number of applications for that listing, at most all of them |
| LandlordDashboard.ApplyAction | src/components/dashboard/LandlordDashboard.tsx:150-162 | the applications with that id take the action's status; nothing else changes |
| LandlordDashboard.ApplyUnknownId | src/components/dashboard/LandlordDashboard.tsx:156-161 | an unknown id changes nothing |
| LandlordDashboard.LastActionWins | src/components/dashboard/LandlordDashboard.tsx:156-161 | acting twice on an application leaves the second action's status |
| LandlordDashboard.ApplyKeepsCounts | src/components/dashboard/LandlordDashboard.tsx:374-411 | acting on an application never changes any listing's application count |
| LandlordDashboard.ActedOnIsSettled | src/components/dashboard/LandlordDashboard.tsx:512 | an application acted on is no longer offered Approve and Reject |
| LandlordDashboard.StatusBadge | src/components/dashboard/LandlordDashboard.tsx:183-192 | approved and rejected badges exactly for those statuses, pending for anything else |
| LandlordDashboard.BadgeAfterAction | src/components/dashboard/LandlordDashboard.tsx:183-192 | after an action the application's badge names that action |
| Home.ToggleFavorite | src/pages/Home.tsx:267-287 | nothing changes unless a tenant is signed in; adding appends; removing is `RemoveAll`, which drops every copy and keeps the count of every other id |
| Seqs.RemoveAllKeepsOrder | src/pages/Home.tsx:279-281 | removing a favourite keeps the order of the others: an element kept stays between what came before and after it |
| Home.HeartClickFlipsFavorite | src/pages/Home.tsx:267-287 | a tenant's heart click flips that listing's favourite state and leaves every other listing's |
| Home.AddThenRemoveFavorite | src/pages/Home.tsx:274-281 | adding then removing a new favourite restores the list |
| Home.TotalPages | src/pages/Home.tsx:230 | the least number of ten-listing pages that holds every listing |
| Home.PaginationBar | src/pages/Home.tsx:414-451 | hidden for one page or none; otherwise buttons 1 to the total, Previous disabled exactly on the first page and Next exactly on the last |
| Home.PaginationStaysInRange | src/pages/Home.tsx:414-451 | an enabled Previous or Next leads to a page within range |
| Home.StartSearch | src/pages/Home.tsx:244-250 | a search records its filters, returns to page 1 and marks the page as searching |
| Home.SearchToast | src/pages/Home.tsx:257-259 | "Search completed" exactly when some filter was given |
| Home.SearchResetsToFirstPage | src/pages/Home.tsx:248 | a new search lands on a page of the bar, with Previous disabled |

## Left out

- `src/lib/api.ts` (the HTTP client and its 401 handling), the currency context and price formatting, and every JSX layout detail are not part of this model.
- Simulated delays, `Date.now`, `Math.random`, `URL.createObjectURL` and `URL.revokeObjectURL` become parameters or are dropped; the values they produce are inputs.
- Toasts are returned as values only where an operation's outcome depends on them; the rest are dropped.
- `JSON.stringify`/`JSON.parse` are modelled by a codec for lists of strings with the same round trip. Field names, numbers and nesting of real JSON are not modelled. Text that would parse in JSON but is not a list of strings is rejected.
- `\s` in the email and phone patterns is ASCII whitespace only; Unicode spaces are not modelled.
- Case-insensitive email comparison uses ASCII case mapping only, not full Unicode `toLowerCase`.
- Strings are sequences of characters, not of UTF-16 code units, and upper-casing maps ASCII letters only. The members below differ from JavaScript on text outside the Basic Multilingual Plane or on non-ASCII letters (such as "é" or "ß"). `CapitalizeWords` is not among them, since `\w` only matches ASCII word characters:
- Auth.ValidatePassword: the eight-character rule counts characters, where `length` counts code units, so four emoji (eight code units) pass in JavaScript and fail in the model.
- Header.UserInitials: `name[0]` takes one code unit, so a name starting with an emoji yields half a surrogate pair in JavaScript; and `toUpperCase` maps "ß" to "SS", which `slice(0, 2)` then counts as two.
- PropertyCard.FormatPropertyType: `charAt(0).toUpperCase()` is full Unicode; the model upper-cases ASCII letters only.
- AuthContext.AuthProvider.InitializeAuth: the optimistic paint of the stored user before the profile check is folded into one step, so the intermediate state is not modelled.
- AuthContext.AuthProvider.Logout: the fire-and-forget logout API call is not modelled.
- AuthContext.AuthProvider.Login and Signup: the rethrow to the caller after the error toast is not modelled; the toast is the result.
- The `useAuth` guard that throws outside a provider is not modelled.
- AuthContext.Merge: a patch field given explicitly as `undefined` overwrites in JavaScript's spread; the model's `None` keeps the old value instead.
- PropertySearch.ParseInt: `parseInt`'s leading whitespace, sign, and radix prefixes are not modelled; only the select's option values reach it.
- Form fields read with `valueAsNumber` (the price boxes) give NaN when empty; the model takes their value as given.
- The furnishing select writes the `bedrooms` field and the property-type select lists cities. These are wiring slips in the markup with no logic of their own, and they are not modelled.
- ImageUpload.ImageUploader.RemoveImage: `updatedImages[0].isPrimary = true` mutates an object shared with the previous list; the model builds a new value, so the aliasing is not captured.
- ImageUpload.ImageUploader.HandleDrop: forwards to the as-written `HandleFiles`; with `HandleFilesCorrected` in its place it would keep the invariant for every batch.
- MockAuth.MockGetProfile: the text of the `MalformedProfile` error is the browser's `JSON.parse` message; the model's text is a stand-in.
- ImageUpload: `onImagesChange` is reported as the `notified` flag; drag-over highlighting is not modelled.
- Home: the fixture of mock listings and the mock favourite `prop1` are data, not logic, and are not modelled; `isSearching` going back to false in `finally` is not modelled.
- LandlordDashboard: the mock listings and applications are data and are not modelled; views are unbounded integers, not JavaScript numbers.
- Home.TotalPages: JavaScript's floating-point division is modelled as exact integer ceiling division.

## Findings

| source | as written | input that shows it | evidently intended | confidence | as-written member | corrected member |
|---|---|---|---|---|---|---|
| src/components/property/ImageUpload.tsx:63-68 | `isPrimary: images.length === 0` reads the photo list from before the batch, so every photo of a first batch is primary | an empty picker given two acceptable files in one batch ends with two primary photos | only the first photo is primary ("First image is primary by default") | not executed | ImageUpload.AsWrittenFirstBatchHasTwoPrimaries | ImageUpload.AddedKeepsOnePrimary |
| src/components/property/PropertySearch.tsx:236-239 | the bedrooms select stores `parseInt(value)` for any non-empty value, including the "any" option | choosing "Any" stores NaN, which the submit clean-up does not remove, so the search is sent with `bedrooms: NaN` | "any" leaves bedrooms undefined, as the neighbouring handler at line 259 does | not executed | PropertySearch.AsWrittenAnyBedroomsIsSubmitted | PropertySearch.BedroomsChoiceSubmitted |
