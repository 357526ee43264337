# CivicHub — a Dafny model of the state core

CivicHub is a residential-society portal. Residents file complaints, pay
maintenance bills and receive notices. Administrators resolve complaints, post
notices and log visitors at the gate. This project models the part of the
system that holds and changes that state:

- **AppContext** (`app_context.dfy`) is the client-side state provider. It is a
  class with seven state cells. Its mutators update local state optimistically,
  call the remote store and then reconcile. A create prepends a record under a
  temporary id built from the clock and swaps in the server's record on
  success. The guarded resolve of a complaint rolls back on failure. When
  the remote sign-in or profile read fails for one of the two demo
  addresses, that address's seeded demo identity signs in with the demo
  seed loaded.
- **Server** (`server.dfy`) is the in-memory REST backend. It is a class whose
  five tables the route handlers change in place. Its login route finds the
  user by email and role, or signs one up on the fly. The token it returns
  is `fakeHeader.<base64 of the claims>.fakeSignature`.
- **Base64** (`base64.dfy`) is the standard base 64 encoding of section 4 of
  RFC 4648, which the token uses, together with its decoding.
- **Dashboard** (`dashboard.dfy`) holds the pure selectors of the dashboard
  pages:
  - per-user filtering, and dues and collection sums;
  - complaint counts;
  - the case-insensitive visitor search with its status filter;
  - visitor statistics;
  - the visitor form's defaults;
  - the conditions under which the resolve and pay buttons are offered.
- **Records** (`records.dfy`) holds the two record transforms that client and
  server apply alike: a complaint status change and the removal of a notice.
- **Constants** (`constants.dfy`) is the demo seed. **Types** (`types.dfy`)
  holds the entities and enumerations. **Seqs** and **Strings** are the
  list and string operations the source uses: `filter`, `find`, `findIndex`,
  id-keyed `map`, `split`, and decimal rendering of `Date.now()`.

Some of the source's inputs become explicit parameters:

- The outcome of every remote call is a parameter `Remote<T>` (`Ok(value)` or
  `Err`). Each client mutator returns the request it sends as a `RemoteCall`.
  There are three exceptions, whose reads are represented only by their
  outcome parameters:
  - `Provider.Login` returns whether the sign-in succeeded. The sign-in
    request, with its password, is not represented.
  - `Provider.FetchData` returns no request. Its five reads are represented
    by its `FetchResult` parameter.
  - `Provider.FetchProfile` returns only the insert that heals a missing
    profile. The profile read is represented by its `ProfileResult` parameter.
- The clock reading `now` (milliseconds) is a parameter.
- JSON serialisation of the token claims is a parameter `stringify`.
- An optional JSON key is an `Option` field. JavaScript's `a || b` on strings
  is `OrElse`, where an empty string counts as missing. An object spread over
  defaults is `GetOr`.

Because the enumerations are datatypes, each status, role and category can
only take the values the source lists.

A few behaviours of the code are easy to overlook. The model follows the
code in each of them:

- Logout clears the user, complaints, notices, visitors and residents, but
  leaves payments and notifications in place.
- Marking a visitor's exit a second time overwrites the first exit time.
- The server's login looks users up by email *and* role.
- The update sent for a complaint status carries the status only, not the
  resolution time.
- The seed complaints and notices are stamped once, when the constants are
  loaded, so reinstalling the seed does not change their times. Only the seed
  visitor's entry time is taken afresh each time.
- No payment unpays a bill, but reinstalling the seed does. A fetch does too.
  Both replace the payments wholesale. A bill paid in the demo shows as
  PENDING again after the demo sign-in fallback reloads the seed. After a
  fetch, a bill shows whatever status the store holds.

## Model

| member | source | states |
|---|---|---|
| Types.OrElse | AppContext.tsx:287 | JavaScript `a \|\| b` on strings: the first operand when it is present and non-empty, else the fallback |
| Seqs.Filter | AppContext.tsx:392 | `filter` keeps exactly the elements satisfying the predicate, no more elements than it was given |
| Seqs.FilterAppend | AppContext.tsx:392 | filtering distributes over concatenation, so survivors keep their relative order |
| Seqs.FilterKeepsAll | AppContext.tsx:392 | a predicate true of every element keeps the whole list |
| Seqs.FilterKeepsNone | pages/Dashboard.tsx:10-11 | a predicate false of every element keeps nothing |
| Seqs.FilterIdempotent | AppContext.tsx:392 | filtering twice by the same predicate equals filtering once |
| Seqs.FilterSamePredicate | pages/Dashboard.tsx:715-721 | two predicates that agree on every element filter alike |
| Seqs.FilterPartitionLength | pages/Dashboard.tsx:723-727 | filtering by a predicate and by its complement splits the length exactly |
| Seqs.FilterFilter | pages/Dashboard.tsx:10-17 | filtering by one predicate and then another is filtering by their conjunction |
| Seqs.FilterLengthIsMatchCount | pages/Dashboard.tsx:17 | the length of a filter is the number of positions whose element passes |
| Seqs.FilterSplitAt | pages/Dashboard.tsx:11-16 | a filter is the filter of the part before a position, that element if it passes, and the filter of the part after |
| Seqs.FilterLengthChangeAt | pages/Dashboard.tsx:723-727 | changing one element changes a filter's length by losing the old element if it passed and gaining the new one if it passes |
| Seqs.UpdateWhere | AppContext.tsx:271 | the id-keyed `map`: the same length, matching elements transformed, all others unchanged |
| Seqs.UpdateAbsent | AppContext.tsx:314 | an id-keyed update of an id that is not present changes nothing |
| Seqs.UpdateFreshHead | AppContext.tsx:314 | after prepending an element under an id absent from the rest, an update by that id touches only the head |
| Seqs.Find | server.js:151 | `find` returns the first element satisfying the predicate, and returns nothing exactly when no element does |
| Seqs.FirstIndex | server.js:210 | `findIndex`: -1 exactly when the id is absent, otherwise an index holding the id with no earlier one |
| Strings.Digits | AppContext.tsx:296 | the decimal rendering of the clock reading is non-empty and all digits |
| Strings.DigitsRoundTrip | AppContext.tsx:296 | reading the decimal rendering back gives the number, so the rendering is injective |
| Strings.StampedIdsDiffer | AppContext.tsx:296 | ids with the same prefix stamped at different instants differ |
| Strings.Split | AppContext.tsx:127 | `split`: at least one part; the first part is the prefix before the first separator and holds no separator |
| Strings.SplitNone | AppContext.tsx:127 | a string without the separator splits into itself alone |
| Strings.SplitAt | server.js:182 | a separator-free part followed by the separator splits off as the first part |
| Strings.EmailLocalPart | AppContext.tsx:127 | `email.split('@')[0]` is the longest '@'-free prefix of the address |
| Constants.InitialNotices | constants.tsx:23-40 | the two seed notices, stamped one and two days before the load instant (properties: SeedShape) |
| Constants.InitialComplaints | constants.tsx:42-67 | the two seed complaints, stamped 12 hours and three days before the load instant (properties: SeedShape, SeedComplaintsUnresolved) |
| Constants.MockVisitors | AppContext.tsx:146-158 | the one seed visitor, who entered an hour before the seed is installed |
| Constants.MockIdentitiesDistinct | constants.tsx:4-21 | the demo admin and the demo resident differ in id and email and carry the roles ADMIN and RESIDENT |
| Constants.MockUnits | constants.tsx:4-21 | the demo admin has no unit; the demo resident lives in B-402 |
| Constants.SeedShape | constants.tsx:23-90 | the seed has two notices, two complaints and two payments, each with unique ids, plus one visitor |
| Constants.SeedComplaintsUnresolved | constants.tsx:42-67 | the seed complaints are OPEN and IN_PROGRESS, and none is resolved or carries a resolution time |
| Constants.SeedPaymentStatuses | constants.tsx:69-90 | p1 is PAID; p2, of 250, is PENDING |
| Base64.SextetChar | server.js:182 | values 0-63 map into the base 64 alphabet, and the pad value maps to '=' |
| Base64.CharSextetInverse | server.js:182 | reading a character back gives the value it encodes |
| Base64.Encode | server.js:182 | four characters per started group of three octets, each from the alphabet or '=', so never a '.' |
| Base64.OctetsSextets | server.js:182 | the octet-to-value stage is undone by regrouping, including the padded one- and two-octet tails |
| Base64.DecodeEncode | server.js:182 | decoding an encoding gives back the original octets |
| AppContext.TempComplaintId | AppContext.tsx:296 | the temporary id of a complaint: "temp-" and the clock in decimal (partner: TempIdsDiffer) |
| AppContext.TempNoticeId | AppContext.tsx:379 | the temporary id of a notice: "temp-notice-" and the clock in decimal (partner: TempIdsDiffer) |
| AppContext.TempVisitorId | AppContext.tsx:402 | the temporary id of a visitor: "temp-visitor-" and the clock in decimal (partner: TempIdsDiffer) |
| AppContext.NotificationId | AppContext.tsx:301 | the id of a notification: "notif-" and the clock in decimal |
| AppContext.TempIdsDiffer | AppContext.tsx:296 | temporary complaint, notice and visitor ids created at different instants are different |
| AppContext.MockUserByEmail | AppContext.tsx:120 | the demo lookup returns a demo identity with that address, and returns nothing exactly when it matches neither |
| AppContext.MockEmailsSelectMockUsers | AppContext.tsx:210 | the admin's address selects the admin and the resident's address selects the resident |
| AppContext.WithSeed | AppContext.tsx:141-159 | installing the seed: complaints and notices stamped from the load instant, the seed payments and residents, the visitor stamped now; user and notifications kept |
| AppContext.ReloadKeepsSeedTimes | AppContext.tsx:142-143 | reinstalling the seed later gives the same complaints and notices; only the visitor's entry time moves |
| AppContext.IsDemoUser | AppContext.tsx:170 | the data loader's test: a user whose id is one of the two demo ids |
| AppContext.ProfileUser | AppContext.tsx:108-114 | the user read from a profile row keeps id, name, email, role and unit, and has no phone or avatar |
| AppContext.HealedProfile | AppContext.tsx:125-134 | the healed profile keeps the account id and email, is named by the address before '@', is a RESIDENT, and has unit "N/A" |
| AppContext.ComplaintPayloadFor | AppContext.tsx:284-293 | the complaint row belongs to the acting user and is OPEN; its unit falls back from the draft to the user's unit to "N/A", and is "N/A" exactly when neither gives another unit; category falls back to "General" and priority to MEDIUM |
| AppContext.OptimisticComplaint | AppContext.tsx:297 | the optimistic complaint carries every payload field, under the temporary id, created now, with no resolution time |
| AppContext.ComplaintRaised | AppContext.tsx:300-308 | an unread COMPLAINT notification "Complaint Raised" for the acting user, id "notif-" and the clock, created now, whose message ends with the unit and a full stop |
| AppContext.DemoComplaintUnits | AppContext.tsx:287 | with no unit in the draft, the demo admin files under "N/A" and the demo resident under B-402 |
| AppContext.NoticePayloadFor | AppContext.tsx:371-376 | the notice row keeps title and content, falls back to category General, and is posted by the acting user's name |
| AppContext.OptimisticNotice | AppContext.tsx:380 | the optimistic notice is the payload under the temporary id, created now |
| AppContext.OptimisticVisitor | AppContext.tsx:403 | the optimistic visitor gets the temporary id, status IN and the current entry time, whatever the draft says, and keeps the draft's other fields |
| AppContext.Reconcile | AppContext.tsx:314 | reconciliation replaces exactly the records with the temporary id by the saved record |
| AppContext.ReconcileFreshHead | AppContext.tsx:311-317 | after an optimistic prepend under a fresh id, reconciliation replaces only the head, with the server's record |
| AppContext.ReconcileAbsent | AppContext.tsx:314 | reconciliation after the temporary record is gone changes nothing |
| Records.WithStatus | AppContext.tsx:323 | the status is replaced, the resolution time only when one is given (never erased), and no other field changes |
| AppContext.SetComplaintStatus | AppContext.tsx:323 | complaints with the id get the status, and the resolution time only when one is given; no other field or complaint changes |
| Records.NoticesWithout | AppContext.tsx:392 | the remaining notices are exactly those whose id differs |
| Records.NoticesWithoutAppend | AppContext.tsx:392 | deletion distributes over concatenation, so the survivors keep their order |
| Records.NoticesWithoutAbsent | AppContext.tsx:392 | deleting an absent id leaves the notices unchanged |
| AppContext.MarkExited | AppContext.tsx:414-416 | visitors with the id become OUT with exit time now; all others are unchanged |
| AppContext.ExitTwiceOverwrites | AppContext.tsx:414-416 | exit is unguarded: a second exit equals a single exit at the later time |
| AppContext.MarkPaid | AppContext.tsx:427 | payments with the id become PAID; all others are unchanged |
| AppContext.PaidStaysPaid | AppContext.tsx:427 | a paid bill stays paid whatever bill is paid next |
| AppContext.SeedReloadUnpays | AppContext.tsx:141-145 | reinstalling the seed after p2 is paid shows p2 as PENDING again |
| AppContext.PaymentReceived | AppContext.tsx:430-438 | an unread PAYMENT notification "Payment Successful" for the acting user, id "notif-" and the clock, created now |
| AppContext.MarkRead | AppContext.tsx:270-272 | notifications with the id become read; all others are unchanged |
| AppContext.MarkAllRead | AppContext.tsx:274-276 | every notification becomes read and nothing else changes |
| AppContext.MarkAllReadIdempotent | AppContext.tsx:274-276 | after marking all read, none is unread, and marking again changes nothing |
| AppContext.Provider.constructor | AppContext.tsx:59-65 | every state cell starts empty and no one is signed in; the instant the seed constants were loaded is recorded |
| AppContext.Provider.LoadMockData | AppContext.tsx:141-159 | complaints, notices, payments, residents and visitors become the seed (WithSeed at the load instant and now); user and notifications stay |
| AppContext.Provider.FetchData | AppContext.tsx:168-194 | a demo user or a thrown read loads the seed; otherwise exactly the collections whose response carried data are replaced |
| AppContext.Provider.Login | AppContext.tsx:199-220 | a remote success changes nothing; on failure a seeded address signs in as its demo identity with the seed, and any other address fails with no change |
| AppContext.Provider.FetchProfile | AppContext.tsx:97-139 | a profile row becomes the user; otherwise the demo fallback applies, or for a missing row of an unknown address a healed profile row is inserted |
| AppContext.Provider.SignInAsDemo | AppContext.tsx:120-124 | found iff the address is a demo address; if so the user is that identity with the seed loaded, else nothing changes |
| AppContext.Provider.Logout | AppContext.tsx:256-265 | user, complaints, notices, visitors and residents are cleared; payments and notifications stay; a sign-out is requested |
| AppContext.Provider.MarkNotificationAsRead | AppContext.tsx:270-272 | only the notifications change, by MarkRead |
| AppContext.Provider.MarkAllNotificationsAsRead | AppContext.tsx:274-276 | only the notifications change, by MarkAllRead |
| AppContext.Provider.AddComplaint | AppContext.tsx:281-318 | without a user nothing happens; otherwise one complaint and one COMPLAINT notification are prepended and the payload is inserted; the server's record on success, the optimistic one on failure |
| AppContext.Provider.UpdateComplaintStatus | AppContext.tsx:320-331 | the status is set locally, with a resolution time only for RESOLVED; the remote update carries the status alone |
| AppContext.Provider.HandleSolveComplaint | AppContext.tsx:333-365 | the complaint is RESOLVED with a resolution time; a remote failure restores the previous state exactly and alerts |
| AppContext.Provider.AddNotice | AppContext.tsx:370-389 | without a user nothing happens; otherwise one notice is prepended, which is the server's record on success and the optimistic one on failure |
| AppContext.Provider.DeleteNotice | AppContext.tsx:391-396 | the notices with the id are removed at once and the deletion is requested |
| AppContext.Provider.AddVisitor | AppContext.tsx:401-412 | one visitor is prepended: the server's record on success, the optimistic IN record on failure; the draft is inserted as given |
| AppContext.Provider.UpdateVisitorExit | AppContext.tsx:414-421 | only the visitors change, by MarkExited at now, and that update is requested |
| AppContext.Provider.PayBill | AppContext.tsx:426-444 | the bill is marked PAID; with a user, a PAYMENT notification is prepended |
| Server.FindUser | server.js:151 | the user found matches both the email and the role; nothing is found exactly when no user matches both |
| Server.SignUpUser | server.js:156-166 | the signed-up user gets id "res-" plus the clock, the body's name, email and role, password defaulting to "123456", and unit defaulting to "N/A" |
| Server.ClaimsOf | server.js:174-180 | the token claims are the user's id, role, name, email and unit |
| Server.MakeToken | server.js:182 | the token starts with "fakeHeader.", ends with "fakeSignature", and has the length of both plus the encoded payload and two dots |
| Server.ThreeSegments | server.js:182 | three separator-free parts joined by the separator split back into exactly those three |
| Server.TokenSegments | server.js:182 | the token splits on '.' into the fixed header, the base 64 payload and the fixed signature |
| Server.TokenPayloadDecodes | server.js:182 | the token has three segments and its middle segment decodes to the payload |
| Server.SeedTables | server.js:17-140 | the seed users are unique by id and by address; the three seed bills have unique ids; the second resident owes 300, overdue |
| Server.SeedLoginNeedsRole | server.js:151 | with no role in the body, no seed user is found, whatever the email |
| Server.SeedAdminFound | server.js:17-26 | the seed admin's email and role find the seed admin |
| Server.NewComplaint | server.js:196-201 | a posted complaint takes the body's fields, and id "c-" plus the clock, createdAt now and status OPEN where the body has none |
| Server.NewNotice | server.js:229-234 | a posted notice takes the body's fields, and id "n-" plus the clock, createdAt now and author "Admin" where the body has none |
| Server.NewVisitor | server.js:254-259 | a posted visitor takes the body's fields, and id "v-" plus the clock, entryTime now and status IN where the body has none |
| Server.IsResident | server.js:300 | a resident is a user whose role is RESIDENT; a user without a role is none |
| Server.SeedResidents | server.js:299-301 | the residents of the seed are res-1 and res-2, in table order |
| Server.FindIndex | server.js:210 | the scan returns the index of the first record with the id, or -1 |
| Server.Backend.constructor | server.js:17-140 | the tables start as the seed users, complaints, notices, visitors and payments |
| Server.Backend.Login | server.js:146-185 | authenticated iff the email and role match a user or the body has a name; a match changes nothing; otherwise the signed-up user is appended; a 401 changes nothing; the token carries the user's claims |
| Server.Backend.GetComplaints | server.js:191-193 | the reply is the complaints table |
| Server.Backend.PostComplaint | server.js:195-204 | the created complaint is prepended and returned; no other table changes |
| Server.Backend.PutComplaintStatus | server.js:206-218 | 404 iff the id is absent, with no change; otherwise the first matching complaint gets the status and a given resolution time |
| Server.Backend.GetNotices | server.js:224-226 | the reply is the notices table |
| Server.Backend.PostNotice | server.js:228-237 | the created notice is prepended and returned; no other table changes |
| Server.Backend.DeleteNotice | server.js:239-243 | every notice with the id is removed and no other table changes |
| Server.Backend.GetVisitors | server.js:249-251 | the reply is the visitors table |
| Server.Backend.PostVisitor | server.js:253-262 | the created visitor is prepended and returned; no other table changes |
| Server.Backend.PutVisitorExit | server.js:264-274 | 404 iff the id is absent, with no change; otherwise the first matching visitor becomes OUT with exit time now |
| Server.Backend.GetPayments | server.js:280-282 | the reply is the payments table |
| Server.Backend.PutPaymentPay | server.js:284-293 | 404 iff the id is absent, with no change; otherwise the first matching payment becomes PAID |
| Server.Backend.GetResidents | server.js:299-301 | the reply is exactly the users whose role is RESIDENT, in table order |
| Dashboard.MyComplaints | pages/Dashboard.tsx:10 | exactly the complaints owned by the signed-in user |
| Dashboard.ActiveComplaintCount | pages/Dashboard.tsx:17 | the active count is the number of positions holding one of the user's complaints that is not resolved, at most the number of the user's complaints |
| Dashboard.ActiveIsOneFilter | pages/Dashboard.tsx:10-17 | keeping the user's complaints and then the unresolved ones keeps exactly the user's unresolved complaints |
| Dashboard.OpenComplaintCount | pages/Dashboard.tsx:91 | the open count is the number of positions holding an OPEN complaint |
| Dashboard.ResolveLowersCounts | pages/Dashboard.tsx:17 | resolving one complaint (ids unique) lowers its owner's active count by one when it was active, and the open count by one when it was open; otherwise neither changes |
| Dashboard.OpenAreActive | pages/Dashboard.tsx:91 | there are never more open complaints than unresolved ones |
| Dashboard.SignedOutOwnsNothing | pages/Dashboard.tsx:10-11 | with nobody signed in, the user's complaints and pending bills are empty |
| Dashboard.DisplayComplaints | pages/Dashboard.tsx:402 | an admin sees every complaint; anyone else sees exactly their own |
| Dashboard.SolvedOffersNoButtons | pages/Dashboard.tsx:487 | after a complaint is resolved, its status buttons are no longer offered |
| Dashboard.ShowStatusButtons | pages/Dashboard.tsx:487 | status buttons are offered to admins on complaints that are not resolved (partner: SolvedOffersNoButtons) |
| Dashboard.SumAmounts | pages/Dashboard.tsx:16 | the reduce-sum of amounts, folding from the left (partners: SumAmountsAppend, SumAmountsCons) |
| Dashboard.SumAmountsAppend | pages/Dashboard.tsx:16 | the sum of amounts over a concatenation is the sum of the parts' sums |
| Dashboard.SumAmountsCons | pages/Dashboard.tsx:16 | the sum with a bill in front is its amount plus the rest's sum |
| Dashboard.MyPendingBills | pages/Dashboard.tsx:11 | exactly the user's bills that are not PAID |
| Dashboard.PendingDues | pages/Dashboard.tsx:16 | the sum of the user's unpaid bills (partners: DuesCons, PayLowersDues, DemoResidentDues) |
| Dashboard.DuesCons | pages/Dashboard.tsx:11-16 | the dues of a list with a bill in front are that bill's amount, when it is the user's and not paid, plus the dues of the rest |
| Dashboard.PayLowersDues | pages/Dashboard.tsx:11-16 | paying a bill (ids unique) lowers the user's dues by its amount when it was theirs and unpaid, and leaves them unchanged otherwise |
| Dashboard.DemoResidentDues | pages/Dashboard.tsx:11-16 | the demo resident's pending dues on the seed are 250 |
| Dashboard.Collected | pages/Dashboard.tsx:892 | the sum of the paid bills (partner: CollectedPlusPending) |
| Dashboard.Pending | pages/Dashboard.tsx:893 | the sum of the bills that are not paid (partner: CollectedPlusPending) |
| Dashboard.CollectedPlusPending | pages/Dashboard.tsx:891-894 | collected plus pending equals the total of all amounts |
| Dashboard.DisplayPayments | pages/Dashboard.tsx:889 | an admin sees every payment; anyone else sees exactly their own |
| Dashboard.ShowPayNow | pages/Dashboard.tsx:939 | Pay Now is offered to non-admins on bills that are not paid (partner: PaidOffersNoPayNow) |
| Dashboard.PaidOffersNoPayNow | pages/Dashboard.tsx:939 | after a bill is paid, Pay Now is no longer offered for it |
| Dashboard.ToLower | pages/Dashboard.tsx:717 | lower-casing keeps the length, leaves no upper-case letter, and keeps every other character |
| Dashboard.ToLowerIdempotent | pages/Dashboard.tsx:717 | lower-casing twice is lower-casing once |
| Dashboard.Contains | pages/Dashboard.tsx:717 | `includes`: the term occurs in the string at some position |
| Dashboard.MatchesSearch | pages/Dashboard.tsx:716-719 | a visitor matches when the lower-cased name contains the lower-cased term and the status passes the filter |
| Dashboard.SearchIgnoresTermCase | pages/Dashboard.tsx:717 | whether a visitor matches does not depend on the case of the term |
| Dashboard.FilteredVisitorsIgnoreTermCase | pages/Dashboard.tsx:715-721 | the visitor log shown does not depend on the case of the term |
| Dashboard.SearchFindsOwnName | pages/Dashboard.tsx:715-721 | searching for a visitor's own name finds them whenever the status filter lets them through |
| Dashboard.FilteredVisitors | pages/Dashboard.tsx:715-721 | exactly the visitors whose lower-cased name contains the lower-cased term and whose status passes the filter; never more than given |
| Dashboard.FilteredVisitorsOrder | pages/Dashboard.tsx:715-721 | the search distributes over concatenation, so it keeps the log's order |
| Dashboard.EmptySearchShowsAll | pages/Dashboard.tsx:715-721 | an empty term with the filter ALL shows every visitor |
| Dashboard.Stats | pages/Dashboard.tsx:723-727 | the total is the log length; the inside and exited counts are the numbers of positions holding an IN and an OUT visitor |
| Dashboard.ExitMovesOneOut | pages/Dashboard.tsx:723-727 | marking the exit of a visitor who is in (ids unique) moves one visitor from inside to exited, and the total stays |
| Dashboard.StatsAddUp | pages/Dashboard.tsx:723-727 | inside plus exited equals the total |
| Dashboard.BlankVisitorForm | pages/Dashboard.tsx:624-629 | a blank form has empty name and phone, purpose "Guest", and the first resident, or none |
| Dashboard.SubmittedVisitor | pages/Dashboard.tsx:631-639 | the submitted visitor keeps the form and gets unit "N/A"; its resident name is that of the first resident with the chosen id, or "Unknown" when there is none or that name is empty |

## Left out

- The remote store client itself, the awaiting of promises and the
  interleaving of concurrent operations. Each remote call is a request value
  plus an outcome parameter, and each operation runs to completion.
- The session listener and the session bootstrap (AppContext.tsx:68-95). They
  only call FetchProfile and FetchData, which are modelled.
- The re-read after healing a missing profile row (AppContext.tsx:136). The
  model issues the insert request; the recursive second profile read is not
  modelled.
- `register` (AppContext.tsx:222-254): account creation in the remote
  authentication service is outside the model.
- `alert`, `console` and the React rendering of the pages are left out. Only
  the values they display are modelled.
- `JSON.stringify` of the token claims is a parameter. The token is proved
  well-formed and decodable for every payload.
- `toISOString` is left out. Timestamps are the clock's milliseconds.
- Payment amounts are integers. JavaScript's floating-point numbers are not
  modelled.
- Dashboard.ToLower folds only ASCII letters. Unicode case folding is not
  modelled.
- Server request-body fields that have no server-side default are taken as
  given, already typed. A PUT status body without a status, and a
  resolution time given as an empty string, are not modelled.
- The Express set-up, CORS, body parsing and `listen` are left out.
- The effect that runs the data loader whenever the user changes
  (AppContext.tsx:161-166) is not modelled as a trigger. FetchData is an
  operation of its own, called explicitly.
- The clock is read once per operation. The source reads `Date.now()` and
  `new Date()` separately for the temporary id, the record time and the
  notification (AppContext.tsx:296-307, 379-380, 402-403, 430-437). In the
  model those readings always coincide.
- The js/ helper files, the layout, its unread-notification badge and the
  non-dashboard pages are left out.
- AppContext.Provider.AddComplaint, AppContext.Provider.AddNotice and
  AppContext.Provider.AddVisitor require the new temporary id to be absent
  from the list. Two creates stamped with the same millisecond are not
  modelled.
- AppContext.ProfileUser drops phone and avatar, as the profile read does.
- Server.Backend.Login: the stored password is never compared, as in the
  source.
