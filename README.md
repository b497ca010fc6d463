# Saviya donation platform — a Dafny model of its core

Saviya connects donors with beneficiary organisations: children's homes, elder
homes and animal centres. The model covers both halves of the application.

- The backend is an Express service over three MongoDB collections: users, homes
  and donations. Its request gate (`protect`, `adminOnly`, `adminProtect`)
  authenticates a bearer JSON Web Token against the live user record. Its
  controllers create, read, update and delete the documents after a fixed
  sequence of checks. The schemas say what a stored document must satisfy.
- The React client keeps a session store (`AuthContext`). It has a listing page
  with a search and a category filter, a detail page for one home, three admin
  pages (dashboard, users, organisations), and the sign-up, sign-in and donation
  forms.

How the model is built:

- Each collection is a class holding a `seq` of records, with a `Valid()`
  invariant: the unique indexes, the schema validators, and ids below the next id
  to be assigned. Each handler is a method that either writes exactly the one
  change the source makes, or leaves the store alone and returns the error reply.
- Each page with React state is a class whose fields are that state. Its handlers
  are methods, and the outcome of each HTTP request they make is a parameter.
- The pure helpers are functions, and lemmas state their properties: token
  decoding and expiry, the listing transform and filter, and the dashboard counts.
- Some behaviour comes from libraries or the environment, so the model takes it
  as a parameter:
  - bcrypt's `hash`/`compare`;
  - `jwt.sign`/`jwt.verify`;
  - `JSON.parse(atob(...))` (`parse`);
  - Mongoose's cast of a string to a Number (`toNumber`);
  - the clock.
- A failed store read is a boolean flag.
- Shared JavaScript built-ins are in `js.dfy`: truthiness, `||` on strings, `trim`,
  `toLowerCase`, `includes` and `split`.
- Generic keyed-list operations are in `records.dfy`. They stand for `findOne`,
  `find`, `filter(x => x._id !== id)` and `map(x => x._id === id ? f(x) : x)`.

## Model

| member | source | states |
|---|---|---|
| `Js.ToLowerCase` | FRONT/src/pages/Organization.jsx:82-85 | the result has the input's length, with each character folded to lower case |
| `Js.ToLowerCaseIdempotent` | FRONT/src/pages/Organization.jsx:82-85 | lower-casing twice gives the same result as lower-casing once |
| `Js.IncludesEmpty` | FRONT/src/pages/Organization.jsx:83-85 | every string includes the empty string, so an empty search matches every card |
| `Js.NatToString` | FRONT/src/pages/Organization.jsx:259-263 | a number prints as a non-empty run of decimal digits |
| `Js.NatToStringValue` | FRONT/src/pages/Organization.jsx:259-263 | the printed digits denote the number itself, with no leading zero |
| `Js.TrimIsTrimmed` | Back/models/donation.js:7-11 | the result of `trim` neither starts nor ends with white space |
| `Js.TrimmedIsFixed` | Back/models/donation.js:36-45 | a string with no white space at either end is left unchanged by `trim` |
| `Js.TrimIdempotent` | Back/models/donation.js:12-16 | trimming twice gives the same result as trimming once, so the `trim` setter is stable |
| `Js.TrimTrailingSpace` | FRONT/src/context/AuthContext.jsx:155 | a string with no white space at either end, followed by one space, trims back to itself |
| `Js.TrimLeadingSpace` | FRONT/src/context/AuthContext.jsx:155 | one space followed by a string with no white space at either end trims back to that string |
| `Js.Split` | Back/middlewares/authMiddleware.js:17 | `split` on one character yields at least one part, and no part contains the separator |
| `Js.SplitFirstPart` | FRONT/src/context/AuthContext.jsx:20 | the first part is the text before the first separator |
| `Js.SplitWithoutSeparator` | FRONT/src/context/AuthContext.jsx:20 | a string without the separator splits into itself alone, so there is no second part |
| `Js.SplitAtFirst` | Back/middlewares/authMiddleware.js:17 | splitting at a one-character separator yields the text before the first separator, then the split of the rest |
| `Records.FindKey` | Back/controller/userController.js:29 | the position of the first record with the key; absent exactly when no record has it |
| `Records.AppendKeepsDistinct` | Back/controller/userController.js:6-22 | appending a record whose key is new keeps the keys unique |
| `Records.FindKeyAppended` | Back/controller/userController.js:16 | after appending a record with a new key, the lookup of that key finds the appended record |
| `Records.RemoveKey` | FRONT/src/pages/AdminUserPage.jsx:36 | the kept records all come from the list and none has the removed key |
| `Records.RemoveKeyKeepsOthers` | FRONT/src/pages/AdminOrganizationPage.jsx:108 | every record with a different key survives the removal |
| `Records.RemoveKeyAppend` | FRONT/src/pages/AdminUserPage.jsx:36 | removal works piecewise over a concatenation, so the kept records keep their relative order |
| `Records.RemoveKeyCount` | Back/controller/homeController.js:152 | with unique keys, deleting a present key removes exactly one record, and deleting an absent key removes none |
| `Records.RemoveKeyKeepsDistinct` | Back/controller/userController.js:98 | a removal keeps every unique index unique |
| `Records.UpdateKey` | FRONT/src/pages/AdminUserPage.jsx:56 | the list keeps its length; each record with the key is replaced by its update, and every other record is unchanged |
| `Jwt.CompactPayloadSegment` | FRONT/src/context/AuthContext.jsx:20 | the second dot-separated segment of a compact token is its payload, whatever the signature holds |
| `UserSchema.NewUser` | Back/models/user.js:21-40 | a new user gets the role "user" when none is given and all three flags false; it passes the validators exactly when email, names, password and any given role are non-empty |
| `UserSchema.Conforms` | Back/models/user.js:4-41 | a stored user has a non-empty email, first name, last name, password and role |
| `UserController.HashPassword` | Back/controller/userController.js:80-83 | a non-empty password in an update is replaced by its hash at cost 10; an update without one, or with "", is left exactly as it was; nothing else in the update changes |
| `UserController.UserStore.SaveUser` | Back/controller/userController.js:6-22 | stores `hash(password, 10)`, never the plaintext; the role is the body's when non-empty, else "user"; a 201 appends exactly one user; an empty email, first or last name, an empty hash or a taken email gives 500 and no write. The required check on the password sees the hash, not the plaintext |
| `UserController.UserStore.Login` | Back/controller/userController.js:25-53 | 404 when no user has the email, before the password check; 401 on a failed compare; otherwise the token signs exactly the six identity claims, expiring 3600 s after issuance |
| `UserController.UserStore.GetUserById` | Back/controller/userController.js:66-76 | 200 with the stored user exactly when one has the id, else 404 |
| `UserController.UserStore.UpdateUser` | Back/controller/userController.js:79-94 | 404 and no write for an absent id; 500 when the new email belongs to another user; otherwise only that user changes, to the patch applied to it |
| `UserController.UserStore.DeleteUser` | Back/controller/userController.js:97-107 | 404 and no write for an absent id; otherwise exactly that user is removed, the others keep their order, and the invariant holds |
| `UserController.SignupThenLogin` | Back/controller/userController.js:6-53 | once a sign-up is saved, a login with the same email and password yields a token for that email that expires one hour later |
| `AuthMiddleware.Protect` | Back/middlewares/authMiddleware.js:6-45 | the checks in order: without a "Bearer " header, 401 "Not authorized, no token"; an empty token, a token that does not verify or a failed store read, 401 "Invalid token"; no user with the token's email, 401 "User not found"; every refusal is a 401 |
| `AuthMiddleware.BearerTokenIsSecondField` | Back/middlewares/authMiddleware.js:17 | the token is the text after "Bearer " up to the next space |
| `AuthMiddleware.ProtectAdmitsExactlyLiveUsers` | Back/middlewares/authMiddleware.js:11-36 | `next` is reached exactly when the token verifies and names a stored user that is neither disabled nor deleted; `req.user` is then that record without its password |
| `AuthMiddleware.StaleClaimsIgnored` | Back/middlewares/authMiddleware.js:23-34 | only the token's email matters; role and flags come from the live record |
| `AuthMiddleware.UnavailableUserRefused` | Back/middlewares/authMiddleware.js:32-34 | a user disabled or deleted after the token was issued is refused with 401 |
| `AuthMiddleware.AdminOnly` | Back/middlewares/authMiddleware.js:48-60 | 401 without a user, 403 for a role other than "admin", `next` exactly for an admin |
| `AuthMiddleware.AdminProtect` | Back/middlewares/authMiddleware.js:63 | `protect` then `adminOnly` on the user it set; its properties are stated by `AdminProtectRequiresProtect` |
| `AuthMiddleware.AdminProtectRequiresProtect` | Back/middlewares/authMiddleware.js:63 | admin access implies `protect` admitted an admin; a refusal by `protect` is passed on unchanged |
| `HomeSchema.NewHome` | Back/models/home.js:5-39 | id, name, registration number, type, location, contact number and email are copied; `picture` and `description` default to ""; a new home conforms exactly when its required fields are non-empty and its type is one of the three enum values |
| `HomeSchema.Conforms` | Back/models/home.js:4-31 | a stored home has a non-empty name, registration number, type, location, contact number and email, and its type is one of the three enum values |
| `HomeController.PatchKeepsConformance` | Back/controller/homeController.js:125-129 | an update that passes the validators keeps a valid home valid |
| `HomeController.OwnKeysNeverConflict` | Back/controller/homeController.js:104-123 | the update's uniqueness checks exclude the home itself, so re-sending its own registration number and email never conflicts |
| `HomeController.ReplaceKeepsUnique` | Back/models/home.js:9-31 | writing a home whose keys no other home holds keeps both unique indexes |
| `HomeController.UpdateKeepsValid` | Back/controller/homeController.js:125-129 | writing a validated patch over one home, when its keys belong to no other home, keeps the collection valid |
| `HomeController.HomeStore.CreateHome` | Back/controller/homeController.js:5-61 | required fields, then type, then registration number, then email, each a 400 with no write; success appends exactly one home with `picture`/`description` defaulted to "" and replies 201 |
| `HomeController.HomeStore.GetHomeById` | Back/controller/homeController.js:75-86 | the stored home exactly when one has the id, else 404 "Home not found" |
| `HomeController.HomeStore.UpdateHome` | Back/controller/homeController.js:89-147 | in order: an invalid type, another home's registration number, another home's email (400 each, and a 400 only then); with none of those, a failed validator gives 500 and otherwise a missing id gives 404. Otherwise only that home changes, to the patch applied to it |
| `HomeController.HomeStore.DeleteHome` | Back/controller/homeController.js:150-168 | 404 and no write for an absent id; otherwise exactly the home with the id is removed and returned |
| `DonationSchema.Cast` | Back/models/donation.js:4-62 | a document results exactly when the validators accept the body: after trimming, name, email, registration number and organisation are non-empty, and the amount is a number ≥ 0. The document carries the given id and timestamp, the body's amount, and each of the eight string paths trimmed |
| `DonationSchema.Accepts` | Back/models/donation.js:4-57 | the validators run on the trimmed values: name, email, registration number and organisation name non-empty, and an amount that is a number ≥ 0 |
| `DonationSchema.CastConforms` | Back/models/donation.js:7-57 | every saved donation is trimmed in every string path and satisfies the required and `min` validators |
| `DonationSchema.RecastIsIdentity` | Back/models/donation.js:10-15 | casting a stored donation again gives it back unchanged |
| `DonationController.ConsNewestFirst` | Back/controller/donationController.js:18 | a donation no older than a newest-first list's head can be put in front and the list stays newest first |
| `DonationController.Insert` | Back/controller/donationController.js:18 | inserting into a newest-first list keeps it newest first, makes it one longer, and leaves at its head either the new donation or the old head |
| `DonationController.InsertAddsOne` | Back/controller/donationController.js:18 | inserting adds exactly that one donation to the list's multiset |
| `DonationController.SortNewestFirst` | Back/controller/donationController.js:18 | the result is a permutation of the input, ordered by non-increasing `createdAt` |
| `DonationController.AppendKeepsStoreValid` | Back/controller/donationController.js:6-7 | appending a valid donation with the next id keeps ids unique and every donation valid |
| `DonationController.CastKeepsStoreValid` | Back/controller/donationController.js:6-7 | appending the cast of a body the schema accepts, with the next id, keeps the collection valid |
| `DonationController.DonationStore.CreateDonation` | Back/controller/donationController.js:4-13 | 201 exactly when the schema accepts the body, which is then appended once as cast; otherwise 500 "Failed to create donation" and no write |
| `DonationController.DonationStore.GetAllDonations` | Back/controller/donationController.js:16-24 | 200 with every stored donation exactly once, newest first; a failed read gives 500 |
| `DonationController.OlderComesLater` | Back/controller/donationController.js:18 | in a newest-first list, a strictly older donation sits at a later position |
| `DonationController.ListingShowsNewDonation` | Back/controller/donationController.js:18 | a listing after a create contains the new donation, ahead of every older one |
| `AuthContext.DecodeToken` | FRONT/src/context/AuthContext.jsx:18-26 | absent when the token has no second dot-separated segment, else whatever that segment decodes to |
| `AuthContext.IsTokenExpired` | FRONT/src/context/AuthContext.jsx:29-39 | expired when the token does not decode or has no non-zero `exp`, else when `exp` seconds lie before now; its properties are stated by `ExpiryIsStrict`, `UndecodableIsExpired` and `IssuedTokenLastsOneHour` |
| `AuthContext.DecodeCompact` | FRONT/src/context/AuthContext.jsx:18-26 | a compact token decodes to its payload segment |
| `AuthContext.ExpiryIsStrict` | FRONT/src/context/AuthContext.jsx:34-35 | a token is still valid at the millisecond of `exp` and expired one millisecond later |
| `AuthContext.UndecodableIsExpired` | FRONT/src/context/AuthContext.jsx:31-32 | a token that does not decode is always expired |
| `AuthContext.IssuedTokenLastsOneHour` | FRONT/src/context/AuthContext.jsx:29-39 | a token issued by the login route is valid for exactly one hour after issuance |
| `AuthContext.GetFullName` | FRONT/src/context/AuthContext.jsx:153-156 | "" without a user; otherwise first name, a space and last name, trimmed; the result never starts or ends with white space |
| `AuthContext.FullNameOfTrimmedNames` | FRONT/src/context/AuthContext.jsx:155 | with both names non-empty and trimmed, the full name is exactly "first last" |
| `AuthContext.FullNameWithoutLastName` | FRONT/src/context/AuthContext.jsx:155 | when the last name is empty and the first name has no white space at either end, the full name is the first name with no trailing space |
| `AuthContext.FullNameWithoutFirstName` | FRONT/src/context/AuthContext.jsx:155 | when the first name is empty and the last name has no white space at either end, the full name is the last name with no leading space |
| `AuthContext.UserOf` | FRONT/src/context/AuthContext.jsx:71-78 | the user object is exactly the six identity claims of the payload |
| `AuthContext.IsAdmin` | FRONT/src/context/AuthContext.jsx:149-151 | there is a user and its role is "admin"; `ClientAdminMatchesServer` ties it to the server's gate |
| `AuthContext.ClientAdminMatchesServer` | FRONT/src/context/AuthContext.jsx:149-151 | for a token the server issued to a user, the client's `isAdmin` holds exactly when `adminOnly` admits that user |
| `AuthContext.AuthSession.InitializeAuth` | FRONT/src/context/AuthContext.jsx:51-90 | no stored token changes nothing; an expired token is removed and the session stays unauthenticated; a live token restores its six claims and the bearer header; `loading` ends false on every path |
| `AuthContext.AuthSession.Login` | FRONT/src/context/AuthContext.jsx:92-133 | the returned token is stored; a decodable token sets the user to exactly its six claims and authenticates; an undecodable one fails with "Invalid token received"; a failed request reports the server's message, else axios's |
| `AuthContext.AuthSession.Logout` | FRONT/src/context/AuthContext.jsx:135-147 | the token leaves storage and the headers; there is no user and the session is unauthenticated |
| `AuthContext.LoginThenReload` | FRONT/src/context/AuthContext.jsx:51-133 | a login survives a reload as long as its token has not expired |
| `AuthContext.LogoutThenReload` | FRONT/src/context/AuthContext.jsx:51-147 | after a logout, a reload restores no session |
| `OrganizationPage.TypeToCategory` | FRONT/src/pages/Organization.jsx:16-20 | "Child Home" shows as "Children Care", "Elder Home" as "Elder Care", "Animal Center" as "Animal Care"; any other type passes through unchanged |
| `OrganizationPage.CategoryIdentifiesType` | FRONT/src/pages/Organization.jsx:16-22 | distinct enum types get distinct categories |
| `OrganizationPage.DefaultImage` | FRONT/src/pages/Organization.jsx:62-69 | the image service base, the type's photo, then the crop for the size |
| `OrganizationPage.PhotoFor` | FRONT/src/pages/Organization.jsx:62-69 | the photo of each of the three enum types, and one generic photo for any other type |
| `OrganizationPage.SizeQuery` | FRONT/src/pages/Organization.jsx:64-67 | the listing asks for a 300x200 crop and the detail page for a 600x400 crop |
| `OrganizationPage.DefaultNeeds` | FRONT/src/pages/Organization.jsx:72-79 | the exact five needs of each enum type, and ["Money", "Volunteers", "Supplies"] for any other type; "Money" always comes first |
| `OrganizationPage.FallbackDescription` | FRONT/src/pages/Organization.jsx:40 | "A ", then the type in lower case, then " providing care and support to those in need." |
| `OrganizationPage.ToCard` | FRONT/src/pages/Organization.jsx:35-47 | identity fields are copied and the category is mapped; description and image are the home's own when non-empty, else the fallback description and the type's default image; the needs are the type's default needs |
| `OrganizationPage.TransformAll` | FRONT/src/pages/Organization.jsx:35-47 | one card per home, in the same order |
| `OrganizationPage.FilterHomes` | FRONT/src/pages/Organization.jsx:81-88 | the result holds only cards from the list that match both the search and the category |
| `OrganizationPage.FilterKeepsMatches` | FRONT/src/pages/Organization.jsx:81-88 | every matching card is kept |
| `OrganizationPage.FilterAppend` | FRONT/src/pages/Organization.jsx:81-88 | filtering works piecewise, so kept cards keep their order |
| `OrganizationPage.EmptySearchKeepsAll` | FRONT/src/pages/Organization.jsx:81-88 | an empty search under "All types" keeps every card |
| `OrganizationPage.SearchIgnoresCase` | FRONT/src/pages/Organization.jsx:82-85 | the search does not depend on the case of the term |
| `OrganizationPage.CategoryFilterByType` | FRONT/src/pages/Organization.jsx:86 | a known category selects exactly the homes of its type |
| `OrganizationPage.VisibleNeeds` | FRONT/src/pages/Organization.jsx:254 | the first three needs, or all of them when there are fewer |
| `OrganizationPage.MoreBadge` | FRONT/src/pages/Organization.jsx:259-263 | a badge is shown exactly when there are more than three needs, and it reads "+", the number of needs past the third, then " more" |
| `OrganizationPage.NeedsAllAccounted` | FRONT/src/pages/Organization.jsx:254-263 | without a badge every need is listed; with one, the number the badge reads plus the listed needs is the number of needs |
| `OrganizationPage.DefaultNeedsBadge` | FRONT/src/pages/Organization.jsx:259-263 | a known type's card reads "+2 more"; any other card lists its three needs with no badge |
| `OrganizationPage.ListingPage.FetchOrganizations` | FRONT/src/pages/Organization.jsx:29-59 | the cards of the fetched homes and no error, or an empty list and the error message; `loading` ends false |
| `OrganizationPage.ListingPage.FilteredHomes` | FRONT/src/pages/Organization.jsx:81-88 | the shown cards are fetched cards that match the page's search term and category, never more than were fetched |
| `CareHomeDetail.DetailAgreesWithListing` | FRONT/src/pages/CareHomeDetail.jsx:14-63 | the detail card equals the listing card except for the size of a default image |
| `CareHomeDetail.DetailPage.FetchHomeDetails` | FRONT/src/pages/CareHomeDetail.jsx:44-74 | the home's card and no error, or no home and the error message; `loading` ends false |
| `CareHomeDetail.DetailPage.HandleSponsor` | FRONT/src/pages/CareHomeDetail.jsx:76-80 | navigates to /payment with the home's name and id exactly when a home is loaded |
| `CareHomeDetail.DetailPage.Render` | FRONT/src/pages/CareHomeDetail.jsx:83-157 | the loading view exactly while loading; else the error view exactly when there is a non-empty error; else not-found exactly without a home; else the detail of the loaded home |
| `CareHomeDetail.FetchThenRender` | FRONT/src/pages/CareHomeDetail.jsx:44-157 | after a fetch the page shows the detail or the error, never not-found |
| `AdminDashboard.OrEmpty` | FRONT/src/pages/AdminDashboardPage.jsx:23-25 | a missing payload is an empty list |
| `AdminDashboard.Admins` | FRONT/src/pages/AdminDashboardPage.jsx:37 | exactly the users of the list whose role is "admin": each kept user is one, and every one is kept |
| `AdminDashboard.Regulars` | FRONT/src/pages/AdminDashboardPage.jsx:38 | exactly the users of the list whose role is not "admin": each kept user is one, and every one is kept |
| `AdminDashboard.UserSummaryCoversAll` | FRONT/src/pages/AdminDashboardPage.jsx:36-39 | the admin count and the regular count add up to the number of users |
| `AdminDashboard.OrgSummary` | FRONT/src/pages/AdminDashboardPage.jsx:41-44 | the reduce loop yields the summary `Tally` specifies; its counts add up to the number of homes, with one entry per type |
| `AdminDashboard.TotalAppend` | FRONT/src/pages/AdminDashboardPage.jsx:41-44 | a new entry adds its count to the total |
| `AdminDashboard.TotalBumpOne` | FRONT/src/pages/AdminDashboardPage.jsx:43 | raising an entry by one raises the total by one |
| `AdminDashboard.TallyTotal` | FRONT/src/pages/AdminDashboardPage.jsx:41-44 | the counts add up to the number of homes |
| `AdminDashboard.TallyDistinct` | FRONT/src/pages/AdminDashboardPage.jsx:41-44 | each type has at most one entry |
| `AdminDashboard.TallyCounts` | FRONT/src/pages/AdminDashboardPage.jsx:41-44 | a type has an entry exactly when some home has it, and the entry's count is the number of homes of that type |
| `AdminDashboard.CountType` | FRONT/src/pages/AdminDashboardPage.jsx:41-44 | the reference count of the homes of a type, independent of the reduce, that `TallyCounts` ties each summary entry to; it never exceeds the number of homes |
| `AdminDashboard.CountTypeAppend` | FRONT/src/pages/AdminDashboardPage.jsx:41-44 | counting over one more home adds one exactly when that home has the type |
| `AdminDashboard.DashboardPage.FetchData` | FRONT/src/pages/AdminDashboardPage.jsx:12-34 | each list is the fetched payload or empty; a failure keeps the lists; `loading` ends false |
| `AdminUserPage.ToggledRole` | FRONT/src/pages/AdminUserPage.jsx:48 | "admin" becomes "user"; every other role becomes "admin" |
| `AdminUserPage.ToggleTwice` | FRONT/src/pages/AdminUserPage.jsx:48 | toggling twice restores "admin" and "user"; any other role ends as "user" |
| `AdminUserPage.ToggleOnlyChangesRole` | FRONT/src/pages/AdminUserPage.jsx:56 | only the role of the users with that id changes; every other user and field is unchanged |
| `AdminUserPage.UserListPage.FetchUsers` | FRONT/src/pages/AdminUserPage.jsx:9-22 | the fetched list replaces the page's list, or a failure keeps it; `loading` ends false |
| `AdminUserPage.UserListPage.HandleToggleRole` | FRONT/src/pages/AdminUserPage.jsx:44-62 | an unknown id sends nothing and alerts "Failed to update role"; otherwise the toggled role is sent, and the list changes only if the server accepts it |
| `AdminUserPage.UserListPage.HandleDelete` | FRONT/src/pages/AdminUserPage.jsx:29-41 | declining changes nothing; a delete the server accepts removes the users with the id; a failure keeps the list and alerts the server's message or the fallback |
| `AdminOrganizationPage.SetField` | FRONT/src/pages/AdminOrganizationPage.jsx:40-43 | only the named form field changes |
| `AdminOrganizationPage.UntouchedEditRoundTrip` | FRONT/src/pages/AdminOrganizationPage.jsx:116-129 | saving an untouched edit form writes back exactly the stored home |
| `AdminOrganizationPage.UntouchedEditPassesChecks` | FRONT/src/pages/AdminOrganizationPage.jsx:58-65 | an untouched edit form of a valid stored home passes every check of the update route |
| `AdminOrganizationPage.EditReplacesInPlace` | FRONT/src/pages/AdminOrganizationPage.jsx:65 | an accepted edit keeps the list's length, puts the returned home where the edited one was, and leaves every other position unchanged |
| `AdminOrganizationPage.OrganizationAdminPage.FetchHomes` | FRONT/src/pages/AdminOrganizationPage.jsx:23-33 | the fetched list replaces the page's list, or a failure keeps it; `loading` ends false |
| `AdminOrganizationPage.OrganizationAdminPage.HandleInputChange` | FRONT/src/pages/AdminOrganizationPage.jsx:40-43 | only the named form field changes |
| `AdminOrganizationPage.OrganizationAdminPage.ResetForm` | FRONT/src/pages/AdminOrganizationPage.jsx:78-89 | after a successful submit the form is back to its defaults with type "Child Home", no home is in edit, the form is hidden, and the list is unchanged |
| `AdminOrganizationPage.OrganizationAdminPage.HandleSubmit` | FRONT/src/pages/AdminOrganizationPage.jsx:46-97 | see the rule for this member after the table |
| `AdminOrganizationPage.OrganizationAdminPage.HandleDelete` | FRONT/src/pages/AdminOrganizationPage.jsx:100-113 | declining changes nothing; an accepted delete removes the homes with the id; a failure keeps the list and alerts the server's message or the fallback |
| `AdminOrganizationPage.OrganizationAdminPage.HandleEdit` | FRONT/src/pages/AdminOrganizationPage.jsx:116-129 | the form holds the home's eight fields, the home is in edit, and the form is shown |
| `AdminOrganizationPage.OrganizationAdminPage.ToggleAddForm` | FRONT/src/pages/AdminOrganizationPage.jsx:136-149 | the form's visibility flips; the form is blank and no home is in edit |
| `AdminOrganizationPage.EditThenSubmit` | FRONT/src/pages/AdminOrganizationPage.jsx:46-129 | editing a home and submitting the untouched form sends exactly that home's fields to the update of its id |
| `SignUpPage.ApplyChange` | FRONT/src/pages/SignUpPage.jsx:19-22 | the checkbox sets only `agreed` from `checked`; each text input sets only its own field from `value`, and every other field keeps its value |
| `SignUpPage.PageSignupGetsDefaultRole` | FRONT/src/pages/SignUpPage.jsx:39 | the page sends no role, so the account it creates gets the role "user" |
| `SignUpPage.SignupPage.HandleChange` | FRONT/src/pages/SignUpPage.jsx:19-22 | the form becomes the change applied to it, so only the named field changes |
| `SignUpPage.SignupPage.HandleSubmit` | FRONT/src/pages/SignUpPage.jsx:25-45 | see the rule for this member after the table |
| `SignUpPage.FillThenSubmit` | FRONT/src/pages/SignUpPage.jsx:19-39 | typing one password into both inputs and ticking the box is enough for the form to be sent |
| `SignInPage.ApplyChange` | FRONT/src/pages/SignInPage.jsx:17-20 | only the named field changes; the checkbox uses `checked` |
| `SignInPage.LandingFor` | FRONT/src/pages/SignInPage.jsx:34-38 | "/admin" exactly for the role "admin", "/organization" for every other role |
| `SignInPage.SigninPage.HandleChange` | FRONT/src/pages/SignInPage.jsx:17-20 | the form becomes the change applied to it |
| `SignInPage.SigninPage.HandleSubmit` | FRONT/src/pages/SignInPage.jsx:22-48 | the form's email and password are what `login` posts; success alerts and navigates by role, with the session authenticated as that user; a failure alerts "Login failed: " and the message, and does not navigate; `loading` ends false |
| `SignInPage.AdminSignsIn` | FRONT/src/pages/SignInPage.jsx:27-35 | a token naming an admin takes the page to "/admin", and `isAdmin` then holds for the session |
| `PaymentPage.SetField` | FRONT/src/pages/Payment.jsx:22-25 | only the named form field changes |
| `PaymentPage.PayloadOf` | FRONT/src/pages/Payment.jsx:43-53 | the five inputs as typed, registration "ORG001", organisation "Sunrise Elder Home", `currentNeeds` exactly "Money: <amount>, Goods: <goodsAmount>", and `receivedItems` "" |
| `PaymentPage.PageDonationAccepted` | FRONT/src/pages/Payment.jsx:41-55 | the server accepts a page donation exactly when the trimmed name and email are non-empty and the amount casts to a number ≥ 0 |
| `PaymentPage.RegistrationPresent` | FRONT/src/pages/Payment.jsx:49 | the fixed registration number "ORG001" comes through `trim` unchanged, so it is never blank |
| `PaymentPage.OrganizationNamePresent` | FRONT/src/pages/Payment.jsx:50 | the fixed organisation name comes through `trim` unchanged, so it is never blank |
| `PaymentPage.DonationPage.HandleChange` | FRONT/src/pages/Payment.jsx:22-25 | only the named form field changes |
| `PaymentPage.DonationPage.HandleSubmit` | FRONT/src/pages/Payment.jsx:27-80 | see the rule for this member after the table |
| `PaymentPage.DonateThroughStore` | FRONT/src/pages/Payment.jsx:27-80 | end to end, the page thanks the donor exactly when the store accepts and appends the donation; otherwise it shows the route's failure message |

The rules referred to in the table:

- `AdminOrganizationPage.OrganizationAdminPage.HandleSubmit`:
  - without a token, it alerts and sends nothing;
  - otherwise it PUTs the whole form for a home in edit, or POSTs it;
  - an accepted edit replaces the homes with that id; an accepted add appends the returned home;
  - after success, the form resets to "Child Home", is hidden, and no home is in edit;
  - a failure changes nothing and alerts the server's message or the fallback;
  - `formLoading` ends false on every path.
- `SignUpPage.SignupPage.HandleSubmit`:
  - the form is sent exactly when the terms are agreed and the passwords match, and the terms are checked first;
  - success alerts and navigates to "/";
  - a failure alerts "Signup failed: " followed by the server's message, else axios's.
- `PaymentPage.DonationPage.HandleSubmit`:
  - without a token, only the error message is set, nothing is sent, and `loading` is untouched;
  - otherwise both messages are cleared and the payload is posted;
  - a response with data thanks the donor, clears the form and navigates home;
  - a failure shows the server's message or the fallback;
  - `loading` ends false.

## Left out

- HTTP, Express routing, axios, React rendering and `localStorage` are not modelled as such:
  - a request's outcome is a parameter of the handler that sends it;
  - navigation and alerts are returned values;
  - storage is a single token field.
- Back/routes/*.js, FRONT/src/App.jsx, the navigation bar, the admin shell page and the presentation-only pages are not part of this model. Neither is Back/middleware/auth.js, which no router imports.
- `getHomes` and `getAllUsers` (list everything) are not modelled: they are reads with no decision in them.
- Library behaviour is taken as a parameter, not modelled:
  - bcrypt's `hashSync`/`compareSync`;
  - `jwt.sign`/`jwt.verify`;
  - `JSON.parse(atob(...))`. `atob` decodes standard base64, whereas token segments are base64url, so the model leaves decoding abstract.
- `AuthMiddleware.Protect`: the "Not authorized, no token" refusal is thrown to Express's error handler with status 401. The model returns it directly, and how that handler formats the body is not modelled.
- `UserController.UserStore.SaveUser`: a missing password makes `hashSync` throw before any save, and Express then answers 500; the model has no missing field, so an absent password is "" and is hashed like any other. The required check sees the hash, so an empty password is saved whenever the `hash` parameter returns a non-empty string, as bcrypt always does.
- `UserController.UserStore.UpdateUser`: a patch with an empty required field is written as given. The route does not pass `runValidators`.
- `HomeController.HomeStore.UpdateHome`: the update validators are assumed to refuse an empty required string the same way the save validators do.
- `DonationController.DonationStore.GetAllDonations`: the order among donations with equal `createdAt` is left to the store.
- Timestamps are integers passed in by the caller, not generated.
- The stores never fail and every id is a well-formed document id. So the catch-all 500 replies of the handlers are not modelled: a database error, or a Mongoose cast error on a malformed `:id`. Without them:
  - `UserController.UserStore.SaveUser` fails only on a validation or duplicate-email error;
  - `UserController.UserStore.Login` never answers "Internal server error";
  - `UserController.UserStore.UpdateUser` fails only on a duplicate email;
  - `HomeController.HomeStore.CreateHome` and `HomeController.HomeStore.UpdateHome` never answer "Internal server error" for a store failure;
  - `UserController.UserStore.GetUserById`, `UserController.UserStore.DeleteUser`, `HomeController.HomeStore.GetHomeById` and `HomeController.HomeStore.DeleteHome` answer 404 for an unknown id where a malformed one gets 500 in the source;
  - `DonationController.DonationStore.CreateDonation` fails only when the schema rejects the body.
  Only `AuthMiddleware.Protect` (its store read) and `DonationController.DonationStore.GetAllDonations` take a store failure as a parameter.
- `DonationSchema.Cast`: Mongoose's cast of `amount` to a Number is a parameter `toNumber`, so its string-to-number rules are not reproduced.
- `Js.ToLowerCase`: only the ASCII letters are folded; the full Unicode case mapping is not reproduced.
- `AuthContext.IsTokenExpired`: the clock is in whole milliseconds, and the test `exp * 1000 < nowMs` stands for the source's floating-point `exp < Date.now() / 1000`.
- `OrganizationPage.TypeToCategory`, `OrganizationPage.DefaultNeeds` and `OrganizationPage.PhotoFor` treat only the three enum values specially. In the source these look-ups index plain objects, so a type equal to an inherited property name such as "constructor" would find a function there. The model treats such a type like any other unknown type.
- `AdminDashboard.OrgSummary` keeps entries in first-insertion order. `Object.entries` lists integer-like keys first, and that reordering is not modelled.
- `AdminOrganizationPage.OrganizationAdminPage.HandleInputChange` covers only the form's eight input names. An event with any other name adds a key to the form in the source.
- `SignInPage.SigninPage.HandleSubmit`: the `catch` branch is not modelled, because `login` catches every error itself and so never rejects.
- `PaymentPage.DonationPage.HandleSubmit`: the two-second delay before navigating home is not modelled, and neither is logging.
