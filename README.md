# KYC onboarding: a verified model

This project models the core of a know-your-customer (KYC) onboarding
system in Dafny. The system has two parts.

- **The NestJS back end.** Clients register and sign in with a short-lived
  access token and a rotating refresh token. Each client submits one KYC
  record: incomes, assets, liabilities, wealth sources and an investment
  profile. The server derives the record's net worth. Officers list the
  pending and the reviewed records and approve or reject them. A client may
  revise a record until it is approved. Officers also list and page through
  users with filters. Anyone may also sign up through `POST /users`.
- **The React/Redux front end.** It holds the signed-in user and the
  officers' lists in two store slices. A route guard decides between
  rendering a page and redirecting. The KYC page decides who may edit, and
  the KYC form shows a running net worth. The profile form splits a stored
  phone number into a country code and a local part, and joins them again.

Each module corresponds to one file of the system:

| module | file |
|---|---|
| `KycEntity` | the record and its net-worth hook |
| `KycDto` | the submission body |
| `Kyc` | the KYC service, a class over the `kyc` table |
| `KycController` | the `/kyc` routes |
| `UserStore` | the `user` and `profile` tables and their unique constraints |
| `Auth` | the auth service |
| `Users` | the users service |
| `UsersController` | the `/users` routes |
| `LoginDto`, `RegisterDto`, `CreateUserDto`, `GetUsersDto`, `UpdateProfileDto` | the request bodies |
| `KycSlice`, `UserSlice` | the two store slices |
| `ProtectedRoute` | the route guard |
| `KycForm`, `KycPage` | the KYC form and page |
| `ProfileForm` | the phone handling of the profile form; `Countries` is its country table |

Supporting modules:

- `Wrappers`: `Option` and `Result`.
- `Common`: ids, roles and the HTTP errors.
- `Crypto`: bcrypt and JWT, as symbolic values, and bcrypt's 72-byte input limit.
- `Jwt`: the text of a token in compact form (UTF-8, base64url and the payload's JSON), used to show what that limit does to refresh tokens.
- `Guards`: the access-token guard and the role guard.
- `EcmaPatterns`: the JavaScript regular-expression classes the validators use.
- `ClassValidator`: the length count of the validators' `Length`, `MinLength` and `MaxLength`.
- `Seqs`: sequence helpers, including a stable insertion sort.
- `FrontTypes`: the shapes the client stores.

State that the source changes in place is a class with `modifies` clauses:

- the KYC table (`Kyc.KycService`);
- the user and profile tables (`UserStore.UserTable`);
- the two slices;
- the state of the two forms.

Service methods that write are methods over these classes. Queries,
validators and the front end's derived values are functions.

## Model

| member | source | states |
|---|---|---|
| Common.ParseRole | BackEnd/src/entities/user.entity.ts:12-15 | a parsed role is named by the string it was parsed from |
| Common.RoleNameRoundTrip | BackEnd/src/entities/user.entity.ts:12-15 | parsing a role's name gives the role back; exactly "USER" and "OFFICER" parse |
| Crypto.CompareIsExact | BackEnd/src/auth/auth.service.ts:89-92 | `bcrypt.compare` accepts a value against a hash exactly when the hash was made from that value |
| Crypto.BcryptInput | BackEnd/src/auth/auth.service.ts:125-128 | bcrypt reads an input's first 72 bytes, or all of a shorter one |
| Crypto.CompareReadsFirst72 | BackEnd/src/auth/auth.service.ts:125-128 | the library's compare accepts an input against a hash exactly when the two inputs agree on their first 72 bytes |
| Crypto.CompareExactUpTo72 | BackEnd/src/auth/auth.service.ts:89-92 | when the presented and the hashed input are both at most 72 bytes, the library's compare is exact |
| Crypto.CompareExactBelow72 | BackEnd/src/auth/auth.service.ts:89-92 | a presented input shorter than 72 bytes is compared exactly, however long the hashed one was |
| Crypto.BcryptInputOfLonger | BackEnd/src/auth/auth.service.ts:168-174 | bytes after the first 72 never reach the hash |
| Crypto.Sign | BackEnd/src/auth/auth.service.ts:149-161 | a signed token carries the payload, the secret and the lifetime it was signed with |
| Crypto.Verify | BackEnd/src/auth/auth.service.ts:113-115 | verification succeeds exactly for a well-formed token signed with the given secret, and then yields its payload |
| Crypto.VerifySign | BackEnd/src/auth/auth.service.ts:113-115 | a token verifies under the secret it was signed with, with its own payload, and under no other secret |
| Jwt.CharUtf8 | BackEnd/src/auth/auth.service.ts:149-161 | one to four bytes per character, a single byte exactly for ASCII, and then the code itself |
| Jwt.Utf8 | BackEnd/src/auth/auth.service.ts:149-161 | at least one byte per character |
| Jwt.Utf8Append | BackEnd/src/auth/auth.service.ts:149-161 | encoding a concatenation is concatenating the encodings |
| Jwt.Group | BackEnd/src/auth/auth.service.ts:149-161 | three bytes become four characters |
| Jwt.Tail | BackEnd/src/auth/auth.service.ts:149-161 | one or two final bytes become two or three characters, without padding |
| Jwt.Base64Url | BackEnd/src/auth/auth.service.ts:149-161 | an encoding of n bytes has ceil(4n/3) characters |
| Jwt.Base64UrlAppend | BackEnd/src/auth/auth.service.ts:149-161 | after a whole number of three-byte groups, the encoding of the rest follows the encoding of the start unchanged |
| Jwt.DecimalDigits | BackEnd/src/auth/auth.service.ts:149-161 | a number is written with at least one digit |
| Jwt.JsonString | BackEnd/src/auth/auth.service.ts:150 | a JSON string literal has at least its two quotes |
| Jwt.ClaimsJson | BackEnd/src/auth/auth.service.ts:150 | the part of the payload text fixed by `{ sub, username, role }` is at least 40 characters long |
| Jwt.TokenText | BackEnd/src/auth/auth.service.ts:152-160 | a signed token's text is its signing input, a dot and the signature; any other token is its own text |
| Jwt.SegmentStart | BackEnd/src/auth/auth.service.ts:150 | the payload segment starts with the encoding of the first 27 bytes of the payload text |
| Jwt.SharedStart | BackEnd/src/auth/auth.service.ts:152-160 | behind a 36-character header, the first 72 bytes of a token depend on the header and the payload's first 27 bytes alone |
| Jwt.SameClaimsSameFirst72Bytes | BackEnd/src/auth/auth.service.ts:149-161 | two tokens over the same claims have the same first 72 bytes, whatever their secrets, issue times and lifetimes |
| Guards.Authorize | BackEnd/src/kyc/kyc.controller.ts:22-27 | a request passes exactly when a caller is present and the route names no roles or the caller's role; no caller is 401 "Unauthorized", a wrong role is 403 "Forbidden resource" |
| KycEntity.ParseInvestmentExperience | BackEnd/src/entities/kyc.entity.ts:12-16 | a string parses to a value exactly when it is that value's enum name |
| KycEntity.ParseRiskTolerance | BackEnd/src/entities/kyc.entity.ts:18-22 | a string parses to a value exactly when it is that value's enum name |
| KycEntity.ParseKycStatus | BackEnd/src/entities/kyc.entity.ts:24-28 | a string parses to a status exactly when it is that status's name |
| KycEntity.ParseIncomeType | BackEnd/src/entities/kyc.entity.ts:30-34 | the income types are exactly SALARY, INVESTMENT and OTHERS |
| KycEntity.ParseAssetType | BackEnd/src/entities/kyc.entity.ts:36-40 | the asset types are exactly BOND, LIQUIDITY, REAL_ESTATE and OTHERS |
| KycEntity.ParseLiabilityType | BackEnd/src/entities/kyc.entity.ts:42-46 | the liability types are exactly LOAN, REAL_ESTATE_LOAN and OTHERS |
| KycEntity.ParseWealthSourceType | BackEnd/src/entities/kyc.entity.ts:48-52 | the wealth source types are exactly INHERITANCE and DONATION |
| KycEntity.TotalAppend | BackEnd/src/entities/kyc.entity.ts:111-118 | the total of two lists put together is the sum of their totals |
| KycEntity.CalculateNetWorth | BackEnd/src/entities/kyc.entity.ts:108-120 | the hook sets net worth to total assets less total liabilities and changes no other column |
| KycEntity.NetWorthDependsOnlyOnAssetsAndLiabilities | BackEnd/src/entities/kyc.entity.ts:108-120 | records with the same assets and liabilities get the same net worth, whatever their incomes and wealth sources |
| KycEntity.SuppliedNetWorthOverwritten | BackEnd/src/entities/kyc.entity.ts:119 | a net worth supplied by the client is discarded; running the hook twice is running it once |
| KycEntity.NetWorthOfAddedAsset | BackEnd/src/entities/kyc.entity.ts:111-114 | adding an asset raises the net worth by its amount |
| KycEntity.NetWorthOfAddedLiability | BackEnd/src/entities/kyc.entity.ts:115-118 | adding a liability lowers the net worth by its amount |
| KycEntity.SeededNetWorth | BackEnd/src/seeds/seed.ts:62-106 | the seeded record stores a net worth of 150000.00, which fits the `numeric(15,2)` column |
| KycDto.ToEntry | BackEnd/src/kyc/dto/create-kyc.dto.ts:20-66 | a validated JSON entry becomes an entry with the parsed type and the given amount, and has a description exactly when a non-null one was sent, with that text |
| KycDto.ToEntries | BackEnd/src/kyc/dto/create-kyc.dto.ts:68-89 | a validated list becomes a list of the same length, entry by entry |
| KycDto.ParseCreateKycDto | BackEnd/src/kyc/dto/create-kyc.dto.ts:68-96 | a body is accepted exactly when it passes every rule; each of the four lists is then converted entry by entry (so every type, amount and description is kept, with at least one income and one asset) and both enum values are kept |
| KycDto.ValidationEdgeCases | BackEnd/src/kyc/dto/create-kyc.dto.ts:20-96 | a negative amount, empty liabilities and wealth sources and a null description pass; no incomes, or a liability typed BOND, fails |
| Kyc.Submitted | BackEnd/src/kyc/kyc.service.ts:34-40 | a new record is PENDING, is owned by the caller, carries the body's lists and profile, and has the hook's net worth |
| Kyc.ApprovedBy | BackEnd/src/kyc/kyc.service.ts:86-90 | approval sets the status, the time and the officer, reruns the hook and changes nothing else |
| Kyc.RejectedBy | BackEnd/src/kyc/kyc.service.ts:104-109 | rejection also stores the reason and changes nothing else |
| Kyc.Revised | BackEnd/src/kyc/kyc.service.ts:119-124 | a revision takes each field the patch carries, keeps the others and the reject reason, and makes the record PENDING and unreviewed |
| Kyc.RevisedIdempotent | BackEnd/src/kyc/kyc.service.ts:119-124 | applying the same patch twice is applying it once |
| Kyc.EmptyRevisionOfPendingIsNoOp | BackEnd/src/kyc/kyc.service.ts:119-124 | an empty patch leaves a well-formed pending record as it was |
| Kyc.RevisionAfterRejectionKeepsReason | BackEnd/src/kyc/kyc.service.ts:104-124 | a rejected record resubmitted and later approved still carries the old reject reason |
| Kyc.ReviewedLaterOrder | BackEnd/src/kyc/kyc.service.ts:58 | the reviewed list's order is a total preorder |
| Kyc.PendingOrder | BackEnd/src/kyc/kyc.service.ts:47-50 | the pending list's order is a total preorder |
| Kyc.KycService.constructor | BackEnd/src/migrations/1749142139199-init.ts:11 | the table starts empty |
| Kyc.KycService.RecordOf | BackEnd/src/kyc/kyc.service.ts:26-28 | a record is found for a user exactly when the user owns one, and it is that record |
| Kyc.KycService.FindOne | BackEnd/src/kyc/kyc.service.ts:62-73 | the record with the id, or 404 "KYC not found" |
| Kyc.KycService.Rows | BackEnd/src/kyc/kyc.service.ts:43-60 | a scan lists every record of the table once |
| Kyc.KycService.FindPending | BackEnd/src/kyc/kyc.service.ts:43-52 | exactly the pending records, each once, ordered by the owner's sign-up time |
| Kyc.KycService.FindReviewed | BackEnd/src/kyc/kyc.service.ts:54-60 | exactly the approved and rejected records, each once, newest review first |
| Kyc.KycService.ReviewedRowsAreTimestamped | BackEnd/src/kyc/kyc.service.ts:54-60 | every approved or rejected row carries the review time `findReviewed` orders by |
| Kyc.KycService.Create | BackEnd/src/kyc/kyc.service.ts:21-41 | an officer gets 403; a user with a record gets 403 "KYC already exists for this user"; otherwise the new pending record is stored under a fresh id |
| Kyc.KycService.Approve | BackEnd/src/kyc/kyc.service.ts:75-91 | a non-officer gets 403, a missing id 404, a non-pending record 403; otherwise the approved record replaces the old one |
| Kyc.KycService.Reject | BackEnd/src/kyc/kyc.service.ts:93-110 | the same three errors; otherwise the rejected record, with its reason, replaces the old one |
| Kyc.KycService.Update | BackEnd/src/kyc/kyc.service.ts:112-125 | a missing id is 404 and an approved record 403 "Cannot update an approved KYC"; a pending or rejected record is revised and stored |
| Kyc.ReviewedNewestFirst | BackEnd/src/kyc/kyc.service.ts:58 | a list sorted by the reviewed order has non-increasing review times |
| Kyc.PendingListBySignUp | BackEnd/src/kyc/kyc.service.ts:47-50 | the pending list is ordered by the owners' sign-up times |
| Kyc.QueuesPartitionTable | BackEnd/src/kyc/kyc.service.ts:43-60 | every record is in exactly one of the two officer lists |
| KycController.RouteAccess | BackEnd/src/kyc/kyc.controller.ts:26-85 | submit and update admit only users, reading one record admits every caller, and the list and review routes admit only officers |
| KycController.ViewAccess | BackEnd/src/kyc/kyc.controller.ts:48-50 | an officer or the owner sees the record; anyone else gets 403 "You can only view your own KYC" |
| KycController.FindOneHandler | BackEnd/src/kyc/kyc.controller.ts:44-53 | the record is returned exactly to an authenticated officer or its owner; a missing id is 404 for every caller |
| KycController.UsersReadOnlyTheirOwn | BackEnd/src/kyc/kyc.controller.ts:48-50 | a user who reads a record owns it |
| KycController.PendingHandler | BackEnd/src/kyc/kyc.controller.ts:32-36 | officers get exactly the pending records |
| KycController.ReviewedHandler | BackEnd/src/kyc/kyc.controller.ts:38-42 | officers get exactly the records that are not pending |
| KycController.ParseRejectBody | BackEnd/src/kyc/dto/reject-kyc.dto.ts:3-7 | a reject body is accepted exactly when its reason is a non-empty string; an empty one is 400 "Reject reason is required" |
| KycController.SubmitHandler | BackEnd/src/kyc/kyc.controller.ts:26-30 | a submission succeeds exactly for a user with a valid body and no record; guard errors come before the 400 for an invalid body; a failure writes nothing |
| KycController.ApproveHandler | BackEnd/src/kyc/kyc.controller.ts:55-59 | approval succeeds exactly for an officer on an existing pending record, and stores the approved record |
| KycController.RejectHandler | BackEnd/src/kyc/kyc.controller.ts:61-69 | rejection succeeds exactly for an officer with a valid reason on an existing pending record; the stored reason is never empty |
| KycController.UpdateHandler | BackEnd/src/kyc/kyc.controller.ts:71-85 | a revision succeeds exactly for the owning user on an existing record that is not approved |
| UserStore.UserTable.constructor | BackEnd/src/migrations/1749142139199-init.ts:7-13 | both tables start empty |
| UserStore.UserTable.FindByUsername | BackEnd/src/auth/auth.service.ts:81-83 | an account is found exactly when the username is taken, and it is stored under its own id |
| UserStore.UserTable.FindById | BackEnd/src/auth/auth.service.ts:117-119 | the account with the id, if any |
| UserStore.UserTable.InsertAccount | BackEnd/src/migrations/1749142139199-init.ts:13 | a taken username is a unique violation (23505) that writes nothing; otherwise a new account under a fresh id |
| UserStore.UserTable.InsertProfile | BackEnd/src/migrations/1749142139199-init.ts:7 | a taken email, or a second profile for the user, is a unique violation; otherwise the profile is stored |
| UserStore.UserTable.SaveProfile | BackEnd/src/users/users.service.ts:157 | saving fails with a unique violation exactly when another profile has the email |
| UserStore.UserTable.SetRefreshToken | BackEnd/src/auth/auth.service.ts:169-174 | only the refresh-token slot of that account changes |
| LoginDto.SameRulesAsCreateUser | BackEnd/src/auth/dto/login.dto.ts:4-16 | the login rules on username and password are the create-user rules |
| ClassValidator.CountedLength | BackEnd/src/users/dto/create-user.dto.ts:5 | the length the rules compare is at most the number of characters, and equals it exactly when no U+FE0E or U+FE0F occurs |
| ClassValidator.CountedLengthAppend | BackEnd/src/users/dto/create-user.dto.ts:5 | the counted length of a concatenation is the sum of the counted lengths |
| ClassValidator.PlainLength | BackEnd/src/auth/dto/register.dto.ts:13-14 | without the two selectors, a length rule bounds the number of characters |
| ClassValidator.SelectorNotCounted | BackEnd/src/users/dto/create-user.dto.ts:5 | "abcdefg" followed by U+FE0F has eight characters, counts seven, and fails `Length(8, 10)` |
| CreateUserDto.PasswordCharsCountPlainly | BackEnd/src/users/dto/create-user.dto.ts:9-10 | a string of the pattern's characters counts its full length |
| CreateUserDto.PasswordRule | BackEnd/src/users/dto/create-user.dto.ts:8-14 | a valid password has 12 to 16 characters, all letters, digits or @#&!, with at least one of each kind |
| CreateUserDto.AcceptsMixedPassword | BackEnd/src/users/dto/create-user.dto.ts:10 | "Abcdefgh@1jk" is accepted |
| CreateUserDto.RefusesPasswordWithoutDigit | BackEnd/src/users/dto/create-user.dto.ts:10 | "Abcdefgh@ijk" is refused |
| CreateUserDto.RefusesPasswordWithSpace | BackEnd/src/users/dto/create-user.dto.ts:10 | "Abc defg@h1j" is refused |
| EcmaPatterns.LookaheadWithoutTerminators | BackEnd/src/auth/dto/register.dto.ts:21 | on a line without terminators, a `(?=.*c)` lookahead holds exactly when a `c` occurs later |
| EcmaPatterns.LettersDigitsSpecialsMeaning | BackEnd/src/users/dto/create-user.dto.ts:10 | the pattern matches exactly the strings of 12 to 16 allowed characters that hold a letter, a digit and a special |
| RegisterDto.SkipDots | BackEnd/src/auth/dto/register.dto.ts:21 | where the `(?![.\n])` search stops: past a run of dots, at a character that is not a dot |
| RegisterDto.PatternMeaning | BackEnd/src/auth/dto/register.dto.ts:20-26 | on input without line terminators, the register pattern holds exactly when an uppercase letter, a lowercase letter and one of `@#&!` occur somewhere in it; no digit is needed |
| RegisterDto.AcceptsPasswordWithoutDigit | BackEnd/src/auth/dto/register.dto.ts:17-27 | "Abcdefgh@ijk" registers although the create-user rule refuses it |
| RegisterDto.RegisteredPasswordLoginRefuses | BackEnd/src/auth/dto/register.dto.ts:17-27 | "Abc defg@h1j" registers, but the login body refuses it |
| RegisterDto.RefusesTrailingLineFeed | BackEnd/src/auth/dto/register.dto.ts:21 | a password ending in a line feed is refused |
| Auth.IssueTokens | BackEnd/src/auth/auth.service.ts:149-167 | both tokens carry the account's payload, under their own secrets, for 30 s and 7 days; with distinct secrets neither verifies as the other |
| Auth.CheckCredentials | BackEnd/src/auth/auth.service.ts:81-96 | sign-in succeeds exactly for an existing account whose hash matches the password; every failure is 401 "Invalid credentials" |
| Auth.LoginFailuresIndistinguishable | BackEnd/src/auth/auth.service.ts:85-96 | a wrong password and an unknown username give the same answer |
| Auth.CheckRefresh | BackEnd/src/auth/auth.service.ts:111-141 | with an exact compare, a refresh token is accepted exactly when it verifies under the refresh secret and its hash is the one stored for its subject; every failure is 401 "Invalid refresh token" |
| Auth.NoReplayAfterRotation | BackEnd/src/auth/auth.service.ts:134-137 | with an exact compare, the token just used is refused after a refresh and the one just issued is accepted |
| Auth.CheckRefreshAsWritten | BackEnd/src/auth/auth.service.ts:111-141 | the refresh checks with bcrypt's own compare: accepted exactly when the token verifies, its subject holds a stored hash, and the token's text agrees with the hashed text on the first 72 bytes |
| Auth.AsWrittenAcceptsMore | BackEnd/src/auth/auth.service.ts:125-128 | every token the exact check accepts, the check as written accepts too |
| Auth.ReplayAfterRotationAsWritten | BackEnd/src/auth/auth.service.ts:125-137 | as written, after a refresh stores a new hash, a refresh token issued to the account at any other time is still accepted, while the exact check refuses it |
| Auth.LogoutRevokes | BackEnd/src/auth/auth.service.ts:143-147 | after sign-out, no refresh token of the account is accepted |
| Auth.AccessTokenCannotRefresh | BackEnd/src/auth/auth.service.ts:113-115 | an access token is never accepted as a refresh token |
| Auth.OnlyLatestTokenRefreshes | BackEnd/src/auth/auth.service.ts:169-174 | with an exact compare, once a new token is stored every other token of the account is refused |
| Auth.Register | BackEnd/src/auth/auth.service.ts:28-78 | a taken username is 409 and writes nothing; a taken email fails after the account was saved, leaving it behind; otherwise account, profile, tokens and stored refresh hash |
| Auth.Login | BackEnd/src/auth/auth.service.ts:80-109 | fails exactly when the credentials do, writing nothing; otherwise issues tokens and stores the new refresh hash |
| Auth.Refresh | BackEnd/src/auth/auth.service.ts:111-141 | with an exact compare, fails exactly when the token is refused, writing nothing; otherwise rotates the stored refresh hash |
| Auth.Logout | BackEnd/src/auth/auth.service.ts:143-147 | the account's refresh-token slot is cleared and nothing else changes |
| GetUsersDto.Resolve | BackEnd/src/users/dto/get-users.dto.ts:6-38 | a query is accepted exactly when it passes the rules, else 400; missing fields take page 1, limit 10, "createdAt" and "DESC"; role and status are the named enum values |
| GetUsersDto.EmptyQueryDefaults | BackEnd/src/users/users.service.ts:60-68 | the empty query is page 1 of 10, newest first by creation time, unfiltered |
| GetUsersDto.NoneStatusRefused | BackEnd/src/users/dto/get-users.dto.ts:15-23 | status "NONE" and page 0 are refused; status "APPROVED" alone is accepted |
| Users.Create | BackEnd/src/users/users.service.ts:23-57 | succeeds exactly when the username and email are free; a failure rolls back both tables; success stores a USER account and a profile with empty address fields, and answers with the account's public fields and the profile, without the password |
| Users.ResponseAsWrittenCarriesHash | BackEnd/src/users/users.service.ts:37-55 | as written, `profile.user` in the response holds the stored hash of the sign-up password, so sign-ups that differ only in their passwords are answered differently |
| Users.ResponseHidesPassword | BackEnd/src/users/users.service.ts:51-55 | the corrected response keeps the user's id, username, role, creation time and profile, and is the same whatever the password |
| Users.PageIsSlice | BackEnd/src/users/users.service.ts:97-98 | a page is the slice from its skip to the skip plus the limit, cut at the end of the list |
| Users.ParseSortOrder | BackEnd/src/users/users.service.ts:95 | exactly "ASC" and "DESC" name a direction |
| Users.Order | BackEnd/src/users/users.service.ts:95 | the sort order is a total preorder on the sort key, ascending or descending |
| Users.CeilDiv | BackEnd/src/users/users.service.ts:112 | `Math.ceil(n / d)`: the least count of pages of size `d` that covers `n` rows |
| Users.Page | BackEnd/src/users/users.service.ts:98-99 | `skip((page-1)*limit).take(limit)`: at most `limit` rows, the ones from the offset on |
| Users.Arranged | BackEnd/src/users/users.service.ts:76-95 | the matching rows, each as often as in the table, in the requested order |
| Users.ListUsers | BackEnd/src/users/users.service.ts:59-115 | an unknown direction is a 500; otherwise the page of the arranged rows, their count, and the page count |
| Users.ListingContents | BackEnd/src/users/users.service.ts:76-114 | a page holds at most `limit` matching rows of the table, in order; `total` counts all matches; a page is empty exactly when it lies past `totalPages` |
| Users.PageOfSorted | BackEnd/src/users/users.service.ts:98-99 | a page holds rows of its list, in the list's order |
| Users.PageEmptyPastEnd | BackEnd/src/users/users.service.ts:98-112 | the offset is past the end exactly when the page number is past `totalPages` |
| Users.PagesArePrefix | BackEnd/src/users/users.service.ts:98-99 | pages 1 to n put together are the first n·limit rows |
| Users.AllPagesListEveryone | BackEnd/src/users/users.service.ts:98-112 | pages 1 to `totalPages` put together are the whole arranged list |
| Users.RowOnItsPage | BackEnd/src/users/users.service.ts:98-99 | row i is at place i mod limit of page i div limit + 1 |
| Users.Joined | BackEnd/src/users/users.service.ts:70-73 | a user joined with its profile and its KYC record, each present exactly when one exists |
| Users.JoinAll | BackEnd/src/users/users.service.ts:104-107 | every scanned user joined, in order |
| Users.JoinAllRows | BackEnd/src/users/users.service.ts:104-107 | each joined row is the join of its own account |
| Users.FindAll | BackEnd/src/users/users.service.ts:59-115 | a page of at most `limit` joined users of the table, each passing the filters |
| Users.FindOne | BackEnd/src/users/users.service.ts:117-131 | the joined user, with `kyc` null exactly when the user has no record, or 404 "User not found" |
| Users.FindProfile | BackEnd/src/users/users.service.ts:133-143 | the user's profile, or 404 "Profile not found" |
| Users.MergeChangesOnlyPresentKeys | BackEnd/src/users/users.service.ts:155 | `Object.assign` changes exactly the fields present in the body |
| Users.MergeLaws | BackEnd/src/users/users.service.ts:155 | the empty body changes nothing; sending a body twice is sending it once |
| Users.UpdateProfile | BackEnd/src/users/users.service.ts:145-160 | a missing profile is 404; otherwise the merged profile is saved unless its email belongs to another profile |
| UsersController.GetUsersHandler | BackEnd/src/users/users.controller.ts:29-33 | 401 without a caller, 403 for a non-officer, 400 for an invalid query, else the listing |
| UsersController.MeHandler | BackEnd/src/users/users.controller.ts:35-38 | an authenticated caller gets their own user |
| UsersController.GetUserProfileHandler | BackEnd/src/users/users.controller.ts:40-47 | 401 without a caller; the profile is returned exactly to an officer or its owner when it exists; anyone else gets 403 "You can only view your own profile"; an admitted caller gets 404 "Profile not found" for a missing profile |
| UsersController.UpdateProfileHandler | BackEnd/src/users/users.controller.ts:49-56 | any authenticated caller with a valid body reaches the service, whoever owns the profile: 404 "Profile not found" with nothing written for a missing profile, else the merged profile is stored and returned, or the email conflict comes back as the unmapped unique violation with nothing written |
| UsersController.CreateErrorMapping | BackEnd/src/users/users.controller.ts:61-69 | a unique violation becomes 409 "Username already exists"; other errors pass through unchanged |
| UsersController.CreateHandler | BackEnd/src/users/users.controller.ts:58-70 | an invalid body is 400; a taken username or a taken email is reported as 409 "Username already exists" and writes nothing; success adds exactly one account |
| FrontTypes.OrElse | FrontEnd/src/store/slices/kycSlice.ts:84 | `message \|\| fallback`: a missing or empty message gives the fallback, so a non-empty fallback never yields an empty error |
| KycSlice.FindIndex | FrontEnd/src/store/slices/kycSlice.ts:95 | the first index with the id, or none exactly when no entry has it |
| KycSlice.ReplaceFirstChangesOneEntry | FrontEnd/src/store/slices/kycSlice.ts:95-98 | the list keeps its length and every entry but the first with the payload's id, which becomes the payload |
| KycSlice.WithoutId | FrontEnd/src/store/slices/kycSlice.ts:152 | exactly the entries whose id differs |
| KycSlice.ClientRejectIsRefused | FrontEnd/src/store/slices/kycSlice.ts:57-60 | the client sends no reason, so the server's reject route always refuses the request with a 400 |
| KycSlice.KycState.constructor | FrontEnd/src/store/slices/kycSlice.ts:13-19 | no record, empty lists, not loading, no error |
| KycSlice.KycState.ClearKyc | FrontEnd/src/store/slices/kycSlice.ts:66-69 | the record and the error are cleared; the lists stay |
| KycSlice.KycState.Started | FrontEnd/src/store/slices/kycSlice.ts:74-77 | every request sets loading and clears the error |
| KycSlice.KycState.Failed | FrontEnd/src/store/slices/kycSlice.ts:82-85 | a failure stores the thrown message or the request's own fallback, never an empty error |
| KycSlice.KycState.Loaded | FrontEnd/src/store/slices/kycSlice.ts:78-81 | the payload becomes the record on screen |
| KycSlice.KycState.Updated | FrontEnd/src/store/slices/kycSlice.ts:91-99 | the payload becomes the record on screen and replaces the first pending entry with its id |
| KycSlice.KycState.PendingLoaded | FrontEnd/src/store/slices/kycSlice.ts:122-125 | the pending list is replaced |
| KycSlice.KycState.ReviewedLoaded | FrontEnd/src/store/slices/kycSlice.ts:135-138 | the reviewed list is replaced |
| KycSlice.KycState.Reviewed | FrontEnd/src/store/slices/kycSlice.ts:148-170 | a reviewed record leaves the pending list and heads the reviewed list |
| UserSlice.MergeFiltersIsShallow | FrontEnd/src/store/slices/userSlice.ts:68-73 | a key the payload has takes its value, every other key keeps its own; the empty payload changes nothing; merging twice is merging once |
| UserSlice.MergePaginationIsShallow | FrontEnd/src/store/slices/userSlice.ts:74-79 | the same laws for the pagination |
| UserSlice.UserState.constructor | FrontEnd/src/store/slices/userSlice.ts:24-43 | no user and no clients, page 1 of 10, ascending by creation time, filtered to clients |
| UserSlice.UserState.ClearUser | FrontEnd/src/store/slices/userSlice.ts:63-67 | the user and the error are cleared |
| UserSlice.UserState.SetFilters | FrontEnd/src/store/slices/userSlice.ts:68-73 | the filters become the shallow merge with the payload |
| UserSlice.UserState.SetPagination | FrontEnd/src/store/slices/userSlice.ts:74-79 | the pagination becomes the shallow merge with the payload |
| UserSlice.UserState.CurrentUserStarted | FrontEnd/src/store/slices/userSlice.ts:83-86 | loading, no error |
| UserSlice.UserState.CurrentUserLoaded | FrontEnd/src/store/slices/userSlice.ts:87-92 | the user is stored and the slice counts as authenticated, even when no user came back |
| UserSlice.UserState.CurrentUserFailed | FrontEnd/src/store/slices/userSlice.ts:93-98 | not authenticated but initialized, with the error or "Failed to fetch profile" |
| UserSlice.UserState.ClientListStarted | FrontEnd/src/store/slices/userSlice.ts:99-102 | the list is loading, no error |
| UserSlice.UserState.ClientListLoaded | FrontEnd/src/store/slices/userSlice.ts:103-110 | the clients are replaced and only the total of the pagination changes |
| UserSlice.UserState.ClientListFailed | FrontEnd/src/store/slices/userSlice.ts:111-114 | the error or "Failed to fetch client list" |
| ProtectedRoute.DecideMeaning | FrontEnd/src/components/ProtectedRoute.tsx:22-30 | a page renders exactly for a signed-in user whose role is admitted, or for nobody while the first request is open or on the login page; nobody is sent to /login, a wrong role to / |
| ProtectedRoute.RendersWhileInitializing | FrontEnd/src/components/ProtectedRoute.tsx:22 | before the first profile request settles, every page renders |
| ProtectedRoute.AnyRoleWithoutAllowedRoles | FrontEnd/src/components/ProtectedRoute.tsx:27 | a route without `allowedRoles` renders for every signed-in user |
| KycForm.MissingCountsAsZero | FrontEnd/src/features/kyc/KYCForm.tsx:30-35 | a missing list, a missing row and a missing amount add nothing |
| KycForm.RowsOf | FrontEnd/src/features/kyc/KYCForm.tsx:48 | the form's rows for a record's list: one complete row per entry, with its amount |
| KycForm.SumRowsOfEntries | FrontEnd/src/features/kyc/KYCForm.tsx:30-35 | on complete rows the form's fold equals the server's total |
| KycForm.FormDisagreesWithServer | FrontEnd/src/features/kyc/KYCForm.tsx:29-37 | the form's net worth exceeds the stored one by total incomes plus total wealth sources, and they agree exactly when that sum is 0 |
| KycForm.SalaryOnlyExample | FrontEnd/src/features/kyc/KYCForm.tsx:37 | a single salary of 100 shows 100 in the form and stores 0 |
| KycForm.NetWorthField.constructor | FrontEnd/src/features/kyc/KYCForm.tsx:27 | the shown net worth starts at 0 |
| KycForm.NetWorthField.OnValuesChange | FrontEnd/src/features/kyc/KYCForm.tsx:40-42 | every change recomputes the figure from all the current values |
| KycPage.KycOf | FrontEnd/src/features/kyc/KYC.tsx:31-33 | `user?.kyc`: a summary only when a user is signed in, and then the user's own |
| KycPage.PageStricterThanService | FrontEnd/src/features/kyc/KYC.tsx:31-33 | an editable record is never approved, so the service would take the update; a rejected record is never editable, although the service would take that update too |
| KycPage.SubmitCall | FrontEnd/src/features/kyc/KYC.tsx:57-68 | the form sends an update of the user's own record when there is one, else a create |
| KycPage.EditButtonMeaning | FrontEnd/src/features/kyc/KYC.tsx:203-215 | the Edit button shows exactly over a pending record on an editable page outside editing, and never beside the form; the view shows only over a record |
| KycPage.FormSendsMatchingCall | FrontEnd/src/features/kyc/KYC.tsx:57-68 | a form opened by the Edit button sends an update of that record; a form over no record sends a create |
| KycPage.RejectedRecordIsLocked | FrontEnd/src/features/kyc/KYC.tsx:203-215 | over a rejected record the page shows the view and no Edit button |
| KycPage.ViewAgreesWithForm | FrontEnd/src/features/kyc/KYC.tsx:77-87 | the view's net worth is the form's for the same lists, and differs from a hook-computed stored value by incomes plus wealth sources |
| ProfileForm.FindCountry | FrontEnd/src/features/profile/ProfileForm.tsx:23 | the first country whose code starts the phone, or none exactly when no code does |
| ProfileForm.FirstOccurrence | FrontEnd/src/features/profile/ProfileForm.tsx:28 | the first place the code occurs in the phone |
| ProfileForm.RemoveFirstOfPrefix | FrontEnd/src/features/profile/ProfileForm.tsx:28 | when the phone starts with the code, `replace(code, "")` drops exactly that prefix |
| ProfileForm.SplitWith | FrontEnd/src/features/profile/ProfileForm.tsx:19-32 | over any country list: a non-empty phone starting with a listed code splits into the first such code and the rest, which joined give the phone back |
| ProfileForm.SplitPhone | FrontEnd/src/features/profile/ProfileForm.tsx:19-32 | a non-empty phone starting with a listed code splits into that code and the rest, which joined give the phone back |
| ProfileForm.StripLeadingZeros | FrontEnd/src/features/profile/ProfileForm.tsx:36 | `replace(/^0+/, "")`: a suffix of the input that does not start with 0, all dropped characters being 0 |
| ProfileForm.JoinPhone | FrontEnd/src/features/profile/ProfileForm.tsx:34-38 | the sent phone starts with the selected code, and the next character is not 0 |
| ProfileForm.SplitThenJoin | FrontEnd/src/features/profile/ProfileForm.tsx:19-38 | opening the form and submitting it untouched gives back the stored phone exactly when its local part does not start with 0 |
| ProfileForm.UnitedKingdomNumber | FrontEnd/src/constants/countries.ts:9-10 | a "+44" number selects the United Kingdom entry |
| ProfileForm.SplitAtCountry | FrontEnd/src/features/profile/ProfileForm.tsx:23-29 | a phone matching a country splits into that country's code and everything after it |
| ProfileForm.TrunkZeroLost | FrontEnd/src/features/profile/ProfileForm.tsx:28-36 | every "+44" number stored with a trunk zero shows the zero in the field and is sent back without it |
| ProfileForm.PlusOneIsUnitedStates | FrontEnd/src/constants/countries.ts:9-11 | every "+1" number selects the United States, never Canada |
| ProfileForm.OptionOf | FrontEnd/src/features/profile/ProfileForm.tsx:43-47 | a picker item's value is the country's phone code and its code the country code |
| ProfileForm.MapOptions | FrontEnd/src/features/profile/ProfileForm.tsx:43-47 | every country becomes its item, in order |
| ProfileForm.LabelOrder | FrontEnd/src/features/profile/ProfileForm.tsx:48 | label order is a total preorder |
| ProfileForm.CountryOptions | FrontEnd/src/features/profile/ProfileForm.tsx:41-48 | the items of exactly the countries with a phone code, each as often as listed, sorted by label |
| ProfileForm.ZerosSubmitBareCode | FrontEnd/src/features/profile/ProfileForm.tsx:93-96 | an input of zeros only passes the rules and sends the bare selected code |
| ProfileForm.SeparatorsAreSentAsTyped | FrontEnd/src/features/profile/ProfileForm.tsx:93-96 | "555 12-34" passes the rules and is sent with its space and dash |
| ProfileForm.EmptyOrPlusRefused | FrontEnd/src/features/profile/ProfileForm.tsx:93-96 | an empty input, or one with its own "+", is refused |
| ProfileForm.PhoneField.constructor | FrontEnd/src/features/profile/ProfileForm.tsx:16 | the picker starts at "+1" and the field holds the stored phone |
| ProfileForm.PhoneField.SplitInitialPhone | FrontEnd/src/features/profile/ProfileForm.tsx:19-32 | a matching stored phone moves its code to the picker and its rest to the field; otherwise nothing changes |
| ProfileForm.PhoneField.SelectCountry | FrontEnd/src/features/profile/ProfileForm.tsx:86 | the picker takes the chosen code; the field stays |
| ProfileForm.PhoneField.EditPhone | FrontEnd/src/features/profile/ProfileForm.tsx:90-98 | typing sets the field's local part; the picked code stays |
| ProfileForm.PhoneField.Submit | FrontEnd/src/features/profile/ProfileForm.tsx:34-38 | when the rest of the form passes its rules, something is sent exactly when the phone field passes its input rules, and then it is the selected code joined with the field's local part |

## Left out

- `Users.Create`: answers with the corrected response, which has no password. As written, the response nests the saved user with its password hash under `profile.user`; see "## Findings" and `Users.ResponseAsWrittenCarriesHash`.
- `Crypto.CompareIsExact`: holds only when both inputs are at most 72 bytes (`Crypto.CompareExactUpTo72`), or when the presented one is shorter than 72 bytes (`Crypto.CompareExactBelow72`). The login pattern admits only 12 to 16 ASCII characters, so every presented password is shorter than 72 bytes and every password comparison is exact. This holds even for a registered password that the variation selectors make longer. Refresh tokens are longer, and the model's refresh flow uses the exact compare, which the program does not have; see "## Findings".
- `Auth.CheckRefresh`: uses an exact compare. The program's 72-byte bcrypt compare is `Auth.CheckRefreshAsWritten`.
- `Auth.Refresh`: rotates through `Auth.CheckRefresh`, so it uses the exact compare. As written, the refresh admits the tokens `Auth.CheckRefreshAsWritten` accepts.
- `Auth.NoReplayAfterRotation`: describes refresh with an exact compare. The program's bcrypt reads only 72 bytes, which admits replay (`Auth.ReplayAfterRotationAsWritten`).
- `Auth.OnlyLatestTokenRefreshes`: describes refresh with an exact compare. As written, every refresh token of the account passes the byte compare.
- Cryptography is symbolic. A bcrypt hash is its preimage wrapped, and a JWT is its payload, secret, issue time and lifetime. Hash strength, salts, signature bytes and token expiry are not modelled.
- Clocks and randomness are parameters: `now`, and the fresh ids that the `nextId` counters stand for.
- Ids are `nat`, not uuid strings. Where a token's text is needed, an id's text is a parameter, as are the HMAC signature and the header segment, which is a constant of the model. Token times are read as seconds.
- The database is reduced to tables held as maps.
  - Only the unique constraints on username and email are modelled. Transactions appear only as the rollback of `create` in the users service.
  - `updatedAt` columns are not modelled.
  - `findAll` and `findOne` return every column of the user, the password and refresh-token hashes included. The model returns the account row without showing which columns the client sees.
- `Users.Order`: `sortBy` is any column name in the source. The model takes an abstract integer sort key, and does not model naming a column that does not exist.
- Rows with equal sort keys come back from SQL in no fixed order. The model fixes one, a stable sort of the rows in id order.
- `Users.Arranged`: `LIKE` is modelled as a case-sensitive substring test. The wildcards `%` and `_` inside the search text are not modelled.
- TypeORM refuses a `sortOrder` other than ASC or DESC with an exception. This is modelled as a 500 (`ServerError`).
- `Auth.Logout` clears the refresh-token slot, as the service intends. How TypeORM treats `refreshToken: undefined` in an update is not modelled.
- The validation pipe is configured without `transform` or `whitelist`.
  - Query parameters reach the service as strings. The model gives them as numbers, since the arithmetic coerces them the same way.
  - Extra keys in a body are not modelled.
  - A JSON `null` for an optional field of `UpdateProfileDto` is not modelled.
- `IsEmail`, `IsPhoneNumber` and `IsDateString` are parameters. So is the parsing of a date string.
- Amounts are integers, cents on the back end.
  - JavaScript floating point and decimal rounding are not modelled.
  - Intl currency formatting and the form's input formatter and parser are not modelled.
  - Overflow of the `numeric(15,2)` column is stated as a predicate but not enforced on writes.
- String lengths are counted on Unicode scalar values, as validator.js `isLength` counts them, skipping U+FE0E and U+FE0F (`ClassValidator.CountedLength`). Strings holding a lone surrogate, which JavaScript allows, cannot be written in this model.
- `localeCompare` is modelled as code-unit order.
- The `UpdateKycDto` file, the JWT strategy and the two guards are not part of this model. `UpdateKycDto` is modelled as CreateKycDto with every field optional. The access-token guard is modelled as refusing a request without a valid access token, except on a route marked `@Public()`, which it lets through with no caller. The role guard is modelled as admitting a route without roles.
- HTTP, cookies and the axios interceptors are not modelled. `getCurrentUser` resolving with nothing when no access token is stored is modelled as a `None` payload.
- The `kyc` slice is not registered in the client store. It is modelled as written.
- React rendering, `message` toasts and the `isEditing` flag of the KYC page are not modelled; the flag is a parameter.
- `userSlice.ts` and `ClientList.tsx` import a `SortOrder` enum from `types/user.ts`, which declares none; it only types `UserFilters.sortOrder` as `"ASC" | "DESC"`. The initial sort order is modelled as the string "ASC".
- `KYC.tsx`, `ProtectedRoute.tsx` and `auth.slice.ts` import `getUserProfile` from `userSlice.ts`, which exports only `getCurrentUser`, `getClientList` and the three actions. The refetch that `KYC.tsx` dispatches after a create is not modelled.
- The `getKYCById` thunk calls `kycService.getById`, but the client service names that method `getKYCById`. As written, that thunk never fulfils. `KycSlice.KycState.Loaded` still lists its `fulfilled` case next to `submitKYC.fulfilled`, which does reach it.
- The status tag colours of the KYC page and the client list's display helpers are not modelled.
- Concurrency between requests is not modelled. Each operation runs to completion.
- `Kyc.KycService.Reject`: requires a non-empty reason. The service does not check this itself; the `RejectKycDto` pipe on its only route guarantees it.
- `Users.FindAll`: states the bounds, the membership and the join of each row. The order and the counts are stated on `Users.ListUsers` and `Users.ListingContents`, to which it delegates.

## Findings

| source | as written | input that shows it | evidently intended | confidence | as-written member | corrected member |
|---|---|---|---|---|---|---|
| BackEnd/src/auth/auth.service.ts:125-128 | `bcrypt.compare(refreshToken, user.refreshToken)` compares the presented token with the hash stored at line 170. bcrypt reads only the first 72 bytes of its input. Every refresh token of an account starts with the same 73 characters: the 36-character header, a dot, and the encoding of `{"sub":"` plus the start of the id. | Sign in at time T and keep the refresh token R1. Refresh with R1 at T+1, which stores the hash of R2. Present R1 again: it is accepted and issues new tokens. | a refresh token that has been rotated out is refused | not executed | Auth.ReplayAfterRotationAsWritten | Auth.NoReplayAfterRotation |
| BackEnd/src/users/users.service.ts:37-55 | The profile is created with `user`, the saved entity. Line 51 removes `password` from the top-level copy only, and lines 52-55 return `profile` with `profile.user` intact. Nothing in the back end excludes the column when serialising. | Anyone calls `POST /users` with a valid body: the 201 response carries the bcrypt hash of the new password under `profile.user.password`. | the response omits the password at every depth | not executed | Users.ResponseAsWrittenCarriesHash | Users.ResponseHidesPassword |
