# Expense reimbursement: claim admission and approval, modelled in Dafny

This project models the core of an expense-reimbursement service. An
employee files a claim backed by a bill or by a self-declaration. A
multi-bill claim can cover a trip of several days. The service decides
whether to admit the claim:

- it checks the claim against the grade's limits;
- it checks the bill against earlier bills for duplicates;
- it reads the AI's analysis of the bill.

An admitted claim then goes to review. In the approval routes it passes
two levels, manager and then finance; each level approves, which hands
the claim on, or rejects it, which closes it. No route acts at an HR
level: the routes give a reviewing role only the manager or the finance
level (`ApprovalRoutes.CallerLevel`). The older `ExpenseService` class
still walks a claim through three levels, manager, HR and finance, and
is modelled as `ExpenseService.LegacyClaim`. Notifications go out at each step. Around this sit:

- the owner's edits and deletion of a claim still under review;
- a per-user notification inbox;
- the administrator's user management;
- the account lifecycle: invitation, first password, one-time reset
  codes and the login gate.

One Dafny module models each source file:

| module | source file |
|---|---|
| `Settings` | `src/config/settings.py` |
| `SelfDeclarationLimits` | `src/config/self_declaration_limits.py` |
| `ValidationService` | `src/services/validation_service.py` |
| `DuplicateDetector` | `src/utils/duplicate_detector.py` |
| `AiService` | `src/services/ai_service.py` |
| `FileHandler` | `src/utils/file_handler.py` |
| `Helpers` | `src/utils/helpers.py` |
| `ExpenseModel` | `src/models/expense.py` |
| `UserModel` | `src/models/user.py` |
| `ExpenseSchemas` | `src/schemas/expense.py` |
| `NotificationService` | `src/services/notification_service.py` |
| `ExpenseService` | `src/services/expense_service.py` |
| `ApprovalRoutes` | `src/routes/approval.py` |
| `ClaimAdmission` | claim creation in `src/routes/expense.py` |
| `ClaimEdits` | update and delete in `src/routes/expense.py` |
| `NotificationRoutes` | `src/routes/notification.py` |
| `AdminRoutes` | `src/routes/admin.py` |
| `AuthRoutes` | `src/routes/auth.py` |

A few modules hold shared pieces:

- `Wrappers` holds `Option` and `Result`.
- `Strings` holds Python's string operations on ASCII.
- `Models` holds the records and enums.
- `ClaimStore` holds the claim and approval tables that the routes share.

Pure code becomes functions and lemmas. A route that changes rows in
place becomes a method of a class that holds the table it changes:

- `ClaimStore.Store` for claims, approvals and the notification outbox;
- `NotificationRoutes.Inbox`;
- `AdminRoutes.UserTable`;
- `AuthRoutes.Accounts`;
- `ExpenseService.LegacyClaim`.

Each such method is proved equal to a step function. Lemmas about the step
functions state what the route promises:

- refusal order;
- idempotence;
- single use of tokens;
- that other rows are kept;
- that the claim and approval tables stay consistent.

Loops in the source are methods with loop invariants, each proved equal to
a specification function. Examples are the employee-number scan, the
multi-bill screening and the notification fan-out.

Some values come from outside the model and arrive as parameters:

- the clock;
- random draws;
- database ids;
- hashes of files and passwords;
- the result of a password check;
- whether an email was sent;
- the AI's reading of a bill.

Amounts are `real`. Dates are day numbers. Instants are seconds.

In three places the code promises, or two parts of the code disagree,
more narrowly than a reader might expect. The model follows the code in
each:

- An edit or a deletion is allowed whenever the status is "submitted",
  at any review level and whatever approvals exist, as the docstrings of
  `update_expense` and `delete_expense` say
  (`src/routes/expense.py:1429-1434`, `src/routes/expense.py:1609-1614`;
  `ClaimEdits.CheckEditable`).
- `ValidationService.ValidateExpenseLimits` treats a grade or category
  without a rule as within limits (`src/services/validation_service.py:38-44`).
  Only the self-declaration table falls back to grade D.
- A missing AI recommendation is read as REVIEW by the multi-bill route
  and as APPROVE by the AI service (`ClaimAdmission.CombineRecommendations`,
  `AiService`).

Two clocks meet in the account lifecycle. Invitation and reset-code
expiries are stored from the server's local clock (`datetime.now()`) and
checked against UTC (`datetime.utcnow()`). The model passes the two
readings as separate parameters, `localNow` and `now`, on one scale of
seconds; a server `offset` seconds ahead of UTC reads
`localNow == now + offset`.

## Model

| member | source | states |
|---|---|---|
| Settings.LookupRule | src/config/settings.py:93-202 | the nested `.get(...)` finds a rule exactly when the grade and the category are both keys of the table, and then returns that entry |
| Settings.CommaList | src/config/settings.py:55-58 | one stripped piece per comma-separated part: a comma count plus one pieces, piece k being part k stripped |
| Settings.CommaListPieces | src/config/settings.py:55-58 | no piece of a comma list contains a comma |
| Settings.CommaListJoin | src/config/settings.py:55-58 | for a setting without surrounding whitespace in its parts, joining the pieces with commas gives the setting back |
| Settings.CommaListOfJoin | src/config/settings.py:55-58 | lower-case words joined with commas are split back into exactly those words |
| Settings.AllowedExtensionsList | src/config/settings.py:52-58 | `allowed_extensions_list` has one entry more than the setting has commas |
| Settings.AllowedExtensionsParsed | src/config/settings.py:52-58 | `allowed_extensions_list` is exactly pdf, jpg, jpeg, png, in that order |
| Settings.AllowedExtensionNamesJoined | src/config/settings.py:52 | the written-out extension names, joined with commas, are the `ALLOWED_EXTENSIONS` setting |
| Settings.CorsOriginsList | src/config/settings.py:78-83 | `cors_origins_list` has one entry more than the setting has commas |
| Settings.SameSixCategories | src/config/settings.py:93-202 | the table has exactly grades A to D, and every grade lists the same six categories |
| Settings.MaxAmountIsMaxPerDay | src/config/settings.py:93-202 | every entry has a ceiling, and its `max_amount` equals its `max_per_day` |
| Settings.CeilingsRiseWithGrade | src/config/settings.py:93-202 | for each of the six categories the ceiling rises strictly from grade A to B to C to D |
| Settings.TravelModesNest | src/config/settings.py:94-177 | grade A allows only bus and train, and each grade's travel modes include those of the grade before |
| SelfDeclarationLimits.TierName | src/config/self_declaration_limits.py:70-74 | a grade is looked up under its upper-case form when that is a tier, and under "D" otherwise |
| SelfDeclarationLimits.GetSelfDeclarationLimit | src/config/self_declaration_limits.py:59-76 | an unknown limit type gives 0, and no limit is negative |
| SelfDeclarationLimits.UnknownGradeIsD | src/config/self_declaration_limits.py:72-74 | an unrecognised grade gets grade D's limits |
| SelfDeclarationLimits.GradeCaseInsensitive | src/config/self_declaration_limits.py:70 | a grade and its upper-case form get the same limit |
| SelfDeclarationLimits.DIsStrictest | src/config/self_declaration_limits.py:12-33 | no grade, known or unknown, gets a limit below grade D's |
| SelfDeclarationLimits.TiersOrdered | src/config/self_declaration_limits.py:12-33 | in every tier the per-claim limit is below the monthly total and the count limit is 3; both limits fall strictly from A to D |
| SelfDeclarationLimits.IsCategoryAllowed | src/config/self_declaration_limits.py:36-81 | a category may be self-declared exactly when its lower-case form is travel, food, transport or miscellaneous |
| SelfDeclarationLimits.IsCategoryForbidden | src/config/self_declaration_limits.py:84-86 | a category is forbidden exactly when its lower-case form is "accommodation" |
| SelfDeclarationLimits.CategoryChecksIgnoreCase | src/config/self_declaration_limits.py:79-86 | a category, its upper-case form and its lower-case form are allowed alike and forbidden alike |
| SelfDeclarationLimits.AllowedAndForbiddenDisjoint | src/config/self_declaration_limits.py:36-86 | no category is both allowed and forbidden for self-declaration |
| ValidationService.ValidateExpenseLimits | src/services/validation_service.py:17-68 | valid exactly when no error is reported; an unknown grade or category is valid (fails open); a ceiling error means a non-zero ceiling of the rule that the amount strictly exceeds; a mode error means a travel claim whose given mode is missing from a non-empty allow-list |
| ValidationService.CeilingIsStrict | src/services/validation_service.py:46-54 | an amount above a present, non-zero ceiling reports that ceiling; an amount equal to or below it, or a missing or zero ceiling, never reports a ceiling error |
| ValidationService.CeilingBeforeMode | src/services/validation_service.py:46-65 | an over-ceiling travel claim reports the ceiling even when its mode is also refused |
| ValidationService.ModeCheck | src/services/validation_service.py:56-65 | within the ceiling, a claim is valid exactly when it is not travel, or no mode is given, or the allow-list is empty, or the mode is on it |
| ValidationService.GetCategoryLimit | src/services/validation_service.py:85-98 | a limit exactly when the grade's table has a rule for the category, and then that rule's `max_amount`; `None` for an unknown grade or an unlisted category |
| ValidationService.GetAllowedTravelModes | src/services/validation_service.py:100-112 | `[]` for an unknown grade; otherwise the travel rule's allow-list |
| ValidationService.AllowedModePasses | src/services/validation_service.py:47-65 | a mode from the grade's allow-list, with an amount within the travel ceiling, passes the check |
| ValidationService.NoViolationsIffAllValid | src/services/validation_service.py:149-151 | the violation count is zero exactly when every entry is valid |
| ValidationService.ValidateMultipleExpenses | src/services/validation_service.py:114-153 | one entry per item, in input order, entry i carrying index i and item i's verdict; `total_violations` counts the failed entries and `all_valid` holds exactly when all entries passed |
| DuplicateDetector.CheckDuplicateByHash | src/utils/duplicate_detector.py:48-91 | finds nothing exactly when no earlier claim of the employee, submitted or approved and not the excluded claim, has the hash; otherwise the first such claim in order |
| DuplicateDetector.CheckDuplicateByBillDetails | src/utils/duplicate_detector.py:94-156 | nothing when the bill number or the vendor is missing or empty; otherwise the first comparable claim with the same bill number and vendor (and day, when a date was read), and nothing exactly when there is none |
| DuplicateDetector.FirstDetailsMatch | src/utils/duplicate_detector.py:125-142 | the first comparable claim whose details match, and nothing exactly when no claim matches |
| DuplicateDetector.PerformFullCheck | src/utils/duplicate_detector.py:159-256 | the verdict carries the hash; an unhashable file is no duplicate; a duplicate always names its original and its type; it blocks exactly for a hash match; a hash match is reported whenever one exists, and the details match only otherwise; the original is a comparable earlier claim |
| DuplicateDetector.ExactMatchWins | src/utils/duplicate_detector.py:209-234 | a claim that matches by hash is reported, and blocked, as a file-hash duplicate even when its bill details match another claim |
| DuplicateDetector.IncomparableClaimIgnored | src/utils/duplicate_detector.py:68-76 | an earlier claim of another employee, in a status other than submitted or approved, or the claim being edited, changes no verdict wherever it sits |
| DuplicateDetector.HashSkips | src/utils/duplicate_detector.py:68-78 | a claim that does not match the hash does not change what the hash check finds |
| DuplicateDetector.DetailsSkip | src/utils/duplicate_detector.py:125-142 | a claim whose details do not match does not change what the details check finds |
| AiService.ValidateBillDate | src/services/ai_service.py:363-386 | valid exactly when a trip bound is missing or the date lies between the bounds, inclusive; an invalid date reports "date_mismatch" |
| AiService.CategorySplit | src/services/ai_service.py:422-438 | the food, travel, accommodation and other sums add up to the total: every bill is counted in exactly one of them |
| AiService.CalculateDaySummary | src/services/ai_service.py:422-438 | the summary keeps the date and the bills, counts the bills, and its four category amounts add up to its total; a day without food bills has no food amount |
| AiService.BillsOnMembers | src/services/ai_service.py:397-402 | a day's group holds exactly the bills dated that day |
| AiService.GroupKeysDistinctDates | src/services/ai_service.py:395-407 | the group keys are exactly the bill dates, each listed once |
| AiService.GroupByDate | src/services/ai_service.py:395-402 | the grouping loop yields the distinct dates in order of first appearance, and each key maps to exactly the bills of that date |
| AiService.TripBreakdown | src/services/ai_service.py:409-420 | with both trip dates, one summary per day from start to end inclusive, in order, each over that day's bills |
| AiService.CalculatePerDayBreakdown | src/services/ai_service.py:388-420 | without both trip dates one summary per distinct bill date; with both, end - start + 1 summaries, one per consecutive day |
| AiService.GroupSizesCountBills | src/services/ai_service.py:395-407 | the group sizes add up to the number of bills: grouping loses and duplicates no bill |
| AiService.EveryBillInOneGroup | src/services/ai_service.py:395-407 | every bill lies in the group of exactly one key |
| AiService.TripDaysCoverValidBills | src/services/ai_service.py:363-420 | with both trip dates, a bill lands in the breakdown exactly when its date passes the trip-date check, and on one day only |
| AiService.DailyLimit | src/services/ai_service.py:450-451 | the rule's `max_per_day` when the rule has one, the fallback when the grade or category is unknown |
| AiService.DayBreaches | src/services/ai_service.py:453-471 | a day has breaches exactly when its food or travel amount strictly exceeds its limit; each excess is positive and equals amount minus limit |
| AiService.PositiveExcesses | src/services/ai_service.py:476 | positive excesses sum to a positive total excess |
| AiService.DailyViolationsSound | src/services/ai_service.py:440-479 | the report lists every day over a limit and only such days, each with a positive total excess that is the sum of its excesses |
| AiService.DayReportedIffOver | src/services/ai_service.py:453-477 | a day is reported exactly when it is over its food or travel limit |
| AiService.CheckDailyLimits | src/services/ai_service.py:440-479 | the loop's report equals the days-over-limit report for the grade's food and travel limits |
| AiService.DailyLimitFallbacks | src/services/ai_service.py:450-451 | grade A's daily limits come from its table entries; an unknown grade gets 500 for food and 2000 for travel |
| AiService.CountOf | src/services/ai_service.py:488-495 | a count is positive exactly when some bill's reading is that recommendation |
| AiService.GenerateCombinedRecommendation | src/services/ai_service.py:481-505 | REJECT exactly when a bill says REJECT or a day is over its limit; otherwise REVIEW exactly when a bill says REVIEW; APPROVE otherwise |
| AiService.CombinedIsWorst | src/services/ai_service.py:481-505 | the combined recommendation is the most severe single reading (APPROVE < REVIEW < REJECT), raised to REJECT by any daily violation |
| AiService.MaxSeverityIsWorst | src/services/ai_service.py:488-495 | the worst reading is REJECT exactly when some bill says REJECT, and at least REVIEW exactly when some bill says REJECT or REVIEW |
| AiService.AveragePerDay | src/services/ai_service.py:507-512 | 0 for an empty breakdown; otherwise the average times the number of days is the sum of the day totals |
| AiService.AverageBetween | src/services/ai_service.py:507-512 | the average lies between the smallest and the largest day total |
| AiService.CheckLimits | src/services/ai_service.py:590-615 | valid exactly when no error is reported; an unknown grade is valid; a ceiling error means the amount strictly exceeds it |
| AiService.CheckLimitsGradeATravel | src/services/ai_service.py:590-615 | grade A travel: 1000 by bus passes, 2000 exceeds the ceiling of 1500, and flight_business is a refused mode |
| AiService.GetFallbackAnalysis | src/services/ai_service.py:670-680 | the fallback recommends REVIEW with confidence 0 and no authenticity verdict, carries the error, gives a "Manual review required: " reason and one red flag |
| AiService.StripFences | src/services/ai_service.py:623-635 | the cleaned reply holds only characters of the reply |
| AiService.JsonFencedReplyUnwrapped | src/services/ai_service.py:624-635 | a reply fenced as "```json … ```" is cleaned to its stripped inside |
| AiService.BareFencedReplyUnwrapped | src/services/ai_service.py:624-635 | a reply fenced as "``` … ```" whose inside does not open with "json" is cleaned to its stripped inside |
| AiService.UnfencedReplyStripped | src/services/ai_service.py:624-635 | a reply that neither opens nor closes with a fence, once stripped, is only stripped |
| AiService.ExtractJson | src/services/ai_service.py:637-647 | a span exactly when a `{` comes before a `}`: it then starts with `{`, ends with `}`, is a slice of the cleaned reply, and no `{` precedes it and no `}` follows it |
| AiService.ParseAiResponse | src/services/ai_service.py:617-647 | the fallback with "No JSON in AI response" exactly when the cleaned reply has no brace span; otherwise that span; a reply missing either brace always falls back |
| AiService.ProseFallsBack | src/services/ai_service.py:640-643 | a reply of plain prose falls back to a REVIEW recommendation |
| AiService.AnalyzeBill | src/services/ai_service.py:34-97 | a failed analysis reads as REVIEW with no limit check; otherwise the reading is kept and `is_within_limits` is the limit check with the travel mode read from the bill |
| FileHandler.Extension | src/utils/file_handler.py:32 | the extension holds no dot and is no longer than the name; a name without a dot is its own extension, lower-cased |
| FileHandler.ExtensionOfDotted | src/utils/file_handler.py:32 | the extension of `stem.e` is `e` lower-cased, whatever dots the stem holds |
| FileHandler.ValidateFileWith | src/utils/file_handler.py:21-48 | valid exactly when no error is given and exactly when the extension is allowed and 0 < size <= the limit; a refused extension is reported before any size error, then an oversized file, then an empty one |
| FileHandler.ValidateFile | src/utils/file_handler.py:21-48 | with the settings, valid exactly when the extension is pdf, jpg, jpeg or png and the size is between 1 byte and 10 MiB |
| FileHandler.ExtensionCaseInsensitive | src/utils/file_handler.py:32-34 | upper-casing a file's extension does not change the verdict |
| FileHandler.DateStamp | src/utils/file_handler.py:159 | `%Y%m%d` gives 8 digits that read back as the year, month and day |
| FileHandler.GenerateExpenseNumber | src/utils/file_handler.py:152-161 | 19 characters: "EXP-", 8 digits reading back as the date, "-", then 6 upper-case hexadecimal characters |
| Helpers.SliceEnd | src/utils/helpers.py:100 | Python's `text[:k]` ends within the text, at k when 0 <= k <= len |
| Helpers.TruncateString | src/utils/helpers.py:86-100 | the text unchanged when it fits; otherwise a prefix of the text followed by the suffix; with max_length at least the suffix length, exactly max_length long, and unchanged exactly when the text fits |
| Helpers.TruncateIdempotent | src/utils/helpers.py:98-100 | truncating a truncated text again with the same arguments changes nothing |
| Helpers.TruncateBelowSuffixLength | src/utils/helpers.py:100 | with max_length below the suffix length the negative slice makes the result longer than max_length, and truncating again changes it |
| Helpers.SummaryItems | src/utils/helpers.py:82 | one "k: v" item per entry with a value, and no other; none exactly when every value is None |
| Helpers.SummaryItemsAppend | src/utils/helpers.py:82 | items keep the insertion order of the entries |
| Helpers.GenerateSummary | src/utils/helpers.py:72-83 | all-None data gives ""; a single item is the whole summary |
| Helpers.SummaryOfConcatenation | src/utils/helpers.py:82-83 | the summary of two runs of entries, each with a value, is their summaries joined by " \| " |
| Models.ParseRole | src/models/user.py:14-20 | a role is found exactly for the value it is stored under, and for no other string |
| Models.ParseRoleName | src/models/user.py:14-20 | reading back a role's stored value gives the role |
| Models.FirstActive | src/routes/expense.py:422-425 | `.filter(role, is_active).first()`: an active user with the role from the table, and nothing exactly when there is none |
| Models.ActiveWithRole | src/routes/approval.py:217-220 | `.filter(role, is_active).all()`: exactly the active users with the role; it is non-empty exactly when a first one exists, and starts with it |
| ExpenseModel.GetNextApproverLevel | src/models/expense.py:122-129 | submitted goes to "manager", manager_review to "hr", hr_review to "finance", and every other status to None |
| ExpenseModel.CanBeApprovedBy | src/models/expense.py:131-138 | nobody may approve outside the three review statuses; "admin" may approve in all three; any other approver is the role the status is named after |
| ExpenseModel.OneReviewerPerStatus | src/models/expense.py:133-137 | in a review status at most one role besides "admin" may approve |
| ExpenseModel.ReviewerExists | src/models/expense.py:133-137 | in each review status some role besides "admin" may approve |
| ExpenseModel.NewExpense | src/models/expense.py:75-110 | a new claim defaults to a draft, not within limits, duplicate status "not_checked", not self-declared, with no approver level and no decision times |
| ExpenseModel.NewExpenseNotApprovable | src/models/expense.py:122-138 | a draft can be approved by nobody and has no next approver level |
| UserModel.HasPermission | src/models/user.py:88-97 | "claim_expense" holds exactly for an active user who may claim; the three review permissions exactly for manager, hr, finance and admin; "manage_users" exactly for admin; any other name is refused |
| UserModel.PermissionsNest | src/models/user.py:90-97 | managing users implies the review permissions; the three review permissions agree; an employee has none of them; only "claim_expense" depends on `is_active` |
| UserModel.IsInvitationValid | src/models/user.py:106-112 | valid exactly when a token is present, an expiry is present, and the expiry lies strictly after now |
| UserModel.IsResetTokenValid | src/models/user.py:114-120 | valid exactly when a reset token is present, an expiry is present, and the expiry lies strictly after now |
| UserModel.ExpiryIsFinal | src/models/user.py:106-120 | a token valid at some instant was valid at every earlier instant |
| UserModel.CanLogin | src/models/user.py:122-128 | login is allowed exactly for an active user with a password set and account status "active" |
| ExpenseSchemas.BillFieldErrors | src/schemas/expense.py:43-52 | no field error exactly when the category and travel mode are known values, the amount is positive and the description has 10 to 500 characters |
| ExpenseSchemas.ValidateBillItem | src/schemas/expense.py:43-60 | accepted exactly when the fields pass and a travel bill has a mode; a mode is never required of another category |
| ExpenseSchemas.FirstOutside | src/schemas/expense.py:79-85 | the first bill dated outside the trip, and none exactly when every bill lies within it |
| ExpenseSchemas.ValidateMultiBill | src/schemas/expense.py:63-86 | accepted exactly when there are bills, the purpose fits in 500 characters, and with both trip dates the end is not before the start and every bill lies in between; an end before the start and a bill outside the trip are reported as such |
| ExpenseSchemas.OneTripDateChecksNoBill | src/schemas/expense.py:79 | with one trip date missing, no bill date is checked |
| ExpenseSchemas.SameDayTrip | src/schemas/expense.py:74-76 | a trip may end on the day it starts |
| NotificationService.LevelRole | src/services/notification_service.py:30-37 | only the levels "manager" and "finance" have a role to notify, and the role found is the one the level names |
| NotificationService.RouteLevelsUnmapped | src/services/notification_service.py:30-41 | the upper-case levels the approval routes store, and a missing level, find no role, so no approver is notified |
| NotificationService.ApprovalRequiredFor | src/services/notification_service.py:55-63 | the row for one approver goes to that approver, has type APPROVAL_REQUIRED and names the claim |
| NotificationService.ActiveWithRoleDistinct | src/services/notification_service.py:44-47 | picking the active users of a role out of users with distinct ids gives users with distinct ids |
| NotificationService.ApprovalRequests | src/services/notification_service.py:20-66 | no rows when the level has no role; otherwise one APPROVAL_REQUIRED row per active user of that role, in query order |
| NotificationService.ApprovalRequestRecipients | src/services/notification_service.py:39-64 | every row goes to an active user whose role is the claim's level; every such user receives one; with distinct user ids nobody receives two |
| NotificationService.NotifyApprovalRequired | src/services/notification_service.py:54-64 | the loop over the approvers creates exactly the rows of `ApprovalRequests` |
| NotificationService.ApprovedMessageShape | src/services/notification_service.py:85-87 | the approved message opens with the claim number and the approver, and runs past that opening exactly when non-empty comments were given |
| NotificationService.ApprovedNotice | src/services/notification_service.py:69-97 | one EXPENSE_APPROVED row for the claim's employee, naming the claim |
| NotificationService.NotifyExpenseRejected | src/services/notification_service.py:101-123 | one EXPENSE_REJECTED row for the claim's employee whose message is the rejection reason |
| NotificationService.StatusKind | src/services/notification_service.py:143-150 | "approved" gives EXPENSE_APPROVED, "rejected" gives EXPENSE_REJECTED, every other status SYSTEM |
| NotificationService.NotifyExpenseStatus | src/services/notification_service.py:127-156 | one row for the claim's employee with the given message and the type `StatusKind` picks |
| NotificationService.StatusAgreesWithDecision | src/services/notification_service.py:101-156 | the generic status row for "rejected" is the rejected row, and for "approved" has the approved type |
| ExpenseService.NextStatus | src/services/expense_service.py:76-86 | only the three review statuses move on: manager review to HR review, HR review to finance review, finance review to approved |
| ExpenseService.ReviewLevel | src/services/expense_service.py:95 | dropping "_review" from a review status gives "manager", "hr" or "finance"; other status names are unchanged |
| ExpenseService.Advance | src/services/expense_service.py:82-96 | nothing happens outside the review statuses; otherwise the status moves on, the final step stamps the approval time and clears the level, the others set the next level, and no other field changes |
| ExpenseService.AdvanceAgreesWithModel | src/services/expense_service.py:95 | the level a non-final step sets is the model's next approver level, and that role may approve the new status |
| ExpenseService.ThreeApprovalsApprove | src/services/expense_service.py:76-96 | three approvals take a claim from manager review to approved |
| ExpenseService.SubmittedClaim | src/services/expense_service.py:39-42 | a submitted claim has status submitted, the submission time and the "manager" level, which the notification table maps to managers |
| ExpenseService.SubmittedIsStuck | src/services/expense_service.py:40-86 | status submitted is not in the status flow, so a claim this service submits can never be approved by it |
| ExpenseService.HrReviewersNotNotified | src/services/expense_service.py:95-111 | after manager review the "hr" level maps to no role, so nobody is asked; after HR review finance is asked |
| ExpenseService.RejectedClaim | src/services/expense_service.py:132-136 | a rejected claim carries the reason and time, no level, and can no longer be approved |
| ExpenseService.LegacyClaim.constructor | src/services/expense_service.py:27-31 | the object starts with the given claim and no notifications |
| ExpenseService.LegacyClaim.Submit | src/services/expense_service.py:27-57 | the claim becomes `SubmittedClaim` and the approval requests for its level are appended |
| ExpenseService.LegacyClaim.Approve | src/services/expense_service.py:59-116 | outside the flow nothing changes; otherwise the claim advances, the employee's approved row is appended, then requests to the next level unless the claim is now approved |
| ExpenseService.LegacyClaim.Reject | src/services/expense_service.py:118-150 | the claim becomes `RejectedClaim` and the employee's rejected row is appended |
| ClaimStore.PendingCountUpdate | src/routes/approval.py:190-208 | deciding one record changes the number of pending records by exactly what the old and the new record contribute |
| ClaimStore.AtMostOnePending | src/routes/approval.py:190-195 | in rows kept by the workflow at most one approval record is pending, so the pending-record query has only one answer |
| ClaimStore.ClosedClaimHasNoPending | src/routes/approval.py:190-201 | a claim that is no longer submitted has no pending record left |
| ClaimStore.Store.constructor | src/routes/approval.py:161-195 | the session's view of a claim starts from the given rows |
| ApprovalRoutes.CallerLevel | src/routes/approval.py:175-187 | managers act at the MANAGER level, finance users at the FINANCE level, every other role at none |
| ApprovalRoutes.GateWithinPermission | src/routes/approval.py:175-187 | whoever passes the routes' gate holds the approve permission, but HR and admin users hold it and are still turned away |
| ApprovalRoutes.PendingOfLevel | src/routes/approval.py:55-58 | exactly the pending records of the level |
| ApprovalRoutes.NewestFirst | src/routes/approval.py:58 | the records in reverse creation order |
| ApprovalRoutes.Page | src/routes/approval.py:58 | `.offset(skip).limit(limit)`: the slice from `skip`, at most `limit` long, empty past the end |
| ApprovalRoutes.GetPendingApprovals | src/routes/approval.py:26-58 | no list exactly for callers without a level; otherwise the page at `skip` of at most `limit` records taken from the pending records of the caller's level, newest first |
| ApprovalRoutes.FirstPageListsAllPending | src/routes/approval.py:26-58 | a first page at least as long as the level's pending records lists every pending record of the level and nothing else |
| ApprovalRoutes.FirstPageOpensWithNewest | src/routes/approval.py:55-58 | a first page of one record or more is empty exactly when the level has no pending record, and otherwise opens with the newest of them |
| ApprovalRoutes.PendingAt | src/routes/approval.py:190-201 | the first record pending for this claim at this level, and none exactly when no record is |
| ApprovalRoutes.Admit | src/routes/approval.py:161-201 | an unknown claim is refused as not found, then a caller without a level as having no rights, then a claim with no pending record at the caller's level, naming the level; otherwise the claim, the level and the first pending record |
| ApprovalRoutes.FinanceAlerts | src/routes/approval.py:242-269 | one review request per finance user, in query order |
| ApprovalRoutes.RejectionReason | src/routes/approval.py:450-464 | the generated reason when the generator succeeded, otherwise a line naming the level and ending in the comments |
| ApprovalRoutes.GeneratedReasonNeverStored | src/routes/approval.py:450-464 | as written, a rejection stores and sends "Rejected by <level>: <comments>", never a generated reason |
| ApprovalRoutes.GeneratedReasonStored | src/routes/approval.py:450-464 | with a generator that answers, its text is the stored reason and the employee's notice |
| ApprovalRoutes.DecisionsRefuseAlike | src/routes/approval.py:161-201 | approval and rejection refuse exactly the same calls, with the same error |
| ApprovalRoutes.ApproveMarksSlot | src/routes/approval.py:203-208 | an approval marks the record it took as approved by the caller and leaves every other record as it was |
| ApprovalRoutes.ManagerApprovalHandsOn | src/routes/approval.py:212-283 | a manager approval with an active finance user keeps the claim submitted, moves it to the FINANCE level, opens one pending finance record for the first finance user, and notifies every finance user in order and then the employee |
| ApprovalRoutes.AcceptHandsOn | src/routes/approval.py:224-283 | the same hand-on for an admitted claim and record |
| ApprovalRoutes.HandOnOutbox | src/routes/approval.py:242-345 | after a hand-on the new notifications are one per finance user in order, then the employee's |
| ApprovalRoutes.FinalApproval | src/routes/approval.py:276-345 | a finance approval, or a manager approval with no active finance user, approves the claim now, clears its level, opens no record and notifies only the employee |
| ApprovalRoutes.RejectCloses | src/routes/approval.py:450-555 | a rejection marks the record as rejected by the caller, leaves the other records alone, rejects the claim now with the caller and the reason, clears its level and tells the employee the reason |
| ApprovalRoutes.DecidingLeavesNonePending | src/routes/approval.py:190-208 | in consistent rows the record a decision takes is the only pending one |
| ApprovalRoutes.ApprovePreservesConsistent | src/routes/approval.py:145-345 | an approval keeps the invariant: records belong to the claim, at most one is pending, and a pending record matches the claim's status and level |
| ApprovalRoutes.AcceptPreservesConsistent | src/routes/approval.py:203-300 | the same invariant after an admitted approval of a pending record |
| ApprovalRoutes.DecidedThenOpenConsistent | src/routes/approval.py:203-300 | decided records followed by at most one record open at the claim's level satisfy the invariant |
| ApprovalRoutes.RejectPreservesConsistent | src/routes/approval.py:393-503 | a rejection keeps the invariant |
| ApprovalRoutes.DecisionConsumesOneSlot | src/routes/approval.py:203-300 | every successful decision removes exactly one pending record, and only a hand-on to finance adds one |
| ApprovalRoutes.DecidedClaimIsClosed | src/routes/approval.py:190-201 | once a claim is approved or rejected every further decision on it is refused |
| ApprovalRoutes.ManagerThenFinance | src/routes/approval.py:212-293 | the record a manager approval opens is the one a finance approval then takes, which approves the claim and keeps the invariant |
| ApprovalRoutes.ApproveExpense | src/routes/approval.py:145-345 | the route changes the rows exactly as `ApproveStep` says, a refused call changes nothing, and the invariant is kept |
| ApprovalRoutes.AlertFinance | src/routes/approval.py:242-269 | the loop appends exactly `FinanceAlerts` and changes nothing else |
| ApprovalRoutes.RejectExpense | src/routes/approval.py:393-555 | the route changes the rows exactly as `RejectStep` says, a refused call changes nothing, and the invariant is kept |
| ClaimAdmission.Opened | src/routes/expense.py:416-480 | a stored claim gets one pending MANAGER record for the first active manager and one alert to that manager, or neither when no manager is active; the rows satisfy the workflow invariant |
| ClaimAdmission.OpenedClaimDecisions | src/routes/expense.py:416-440 | a claim opened while a manager is active can be approved or rejected by any manager; one opened while none is can never be decided by anyone |
| ClaimAdmission.SelfDeclarationRefusal | src/routes/expense.py:141-210 | a self-declaration passes exactly when the category may be self-declared, the amount is within the per-claim limit, the month's count is below the limit, the month's total with this amount is within the monthly limit, the description has at least 50 characters and a reason is given |
| ClaimAdmission.SelfDeclarationOrder | src/routes/expense.py:148-210 | each refusal names the first check that failed, with the limit it quotes and, for the monthly total, what remains |
| ClaimAdmission.SelfDeclarationKeepsMonthWithinLimits | src/routes/expense.py:157-197 | after a passing self-declaration the month holds at most three such claims and stays within the monthly total, and the category is not accommodation |
| ClaimAdmission.NewClaim | src/routes/expense.py:343-381 | the stored claim is submitted now at the MANAGER level, for the user and amount, with the category stripped and lower-cased, and "suspected" exactly for a duplicate verdict |
| ClaimAdmission.BillVerdictFacts | src/routes/expense.py:300-309 | a bill's verdict carries the file's hash, names an original exactly when it is a duplicate, and a duplicate that does not block was found by the bill details |
| ClaimAdmission.CreateExpenseClaim | src/routes/expense.py:106-440 | a user who may not claim is refused first; an admitted claim is stored waiting for the manager, and its rows satisfy the workflow invariant |
| ClaimAdmission.ClaimRefusalOrder | src/routes/expense.py:141-226 | a failing self-declaration check refuses it; a bill claim without a file is refused; a self-declaration is admitted exactly when its checks pass and the date parses; a bad date is always refused |
| ClaimAdmission.ExactDuplicateRefused | src/routes/expense.py:298-317 | a bill whose hash matches one of the employee's submitted or approved claims is refused, naming that claim |
| ClaimAdmission.AdmittedBill | src/routes/expense.py:280-381 | an admitted bill claim had a file and a date; it stores the claim built from the bill's analysis and a verdict that did not block |
| ClaimAdmission.BillClaimRecordsVerdict | src/routes/expense.py:302-380 | an admitted bill claim is "suspected" exactly when the full check found a duplicate, links that original, and keeps the file's hash |
| ClaimAdmission.NewClaimKeepsVerdict | src/routes/expense.py:372-380 | the new claim records the verdict: "suspected" exactly for a duplicate, its original, and its hash |
| ClaimAdmission.BillClaimWithinLimits | src/routes/expense.py:288-365 | an admitted bill claim is within limits exactly when the AI's reading failed or the grade's limits accept the claim |
| ClaimAdmission.SelfDeclarationRecords | src/routes/expense.py:239-380 | an admitted self-declaration records the reason, a clean duplicate status with no original, a "SELF-" hash and the recommendation REVIEW |
| ClaimAdmission.ParseUnsigned | src/routes/expense.py:690 | `float()` of digits with an optional fractional part is never negative, and a run of digits reads as its decimal value |
| ClaimAdmission.ParseAmount | src/routes/expense.py:690 | a run of digits reads as its decimal value, and a leading minus never gives a positive amount |
| ClaimAdmission.AmountRoundTrip | src/routes/expense.py:690 | reading back a whole number written in decimal gives that number |
| ClaimAdmission.AmountWithPaise | src/routes/expense.py:690 | reading back rupees, a dot and two digits of paise gives rupees plus paise hundredths |
| ClaimAdmission.PointedAmount | src/routes/expense.py:690 | digits, a dot and more digits read as the whole part plus the fraction scaled by its number of digits |
| ClaimAdmission.Readings | src/routes/expense.py:688-690 | each comma-separated piece is stripped and read with `float()`, in order |
| ClaimAdmission.AmountList | src/routes/expense.py:688-698 | the amounts are accepted exactly when every reading is a positive number, and then they are those numbers in order; otherwise the refusal names the first bill, counted from 1, that is not |
| ClaimAdmission.Amounts | src/routes/expense.py:678-698 | an accepted field gives one amount per comma-separated piece; a refused one names a piece that exists |
| ClaimAdmission.ParseAmounts | src/routes/expense.py:678-698 | the parsing loop gives exactly what `Amounts` says |
| ClaimAdmission.ParsePieces | src/routes/expense.py:688-698 | the loop over the pieces stops at the first bad one and otherwise collects every amount, as `AmountList` says |
| ClaimAdmission.AmountListExtends | src/routes/expense.py:690-693 | one more positive reading appends its amount |
| ClaimAdmission.FirstRefusal | src/routes/expense.py:691-698 | when every earlier reading is positive and this one is not, the list is refused at this bill |
| ClaimAdmission.TripRange | src/routes/expense.py:737-756 | no trip unless both dates are filled in; with both, accepted exactly when both parse and the end is not before the start, the trip then lasting at least one day; every refusal is "invalid trip dates" |
| ClaimAdmission.BillDates | src/routes/expense.py:758-777 | the dates are accepted exactly when each bill's date parses and lies within the trip, and then they are those days in order; otherwise the refusal is that of the first bill that fails |
| ClaimAdmission.FirstDateRefusal | src/routes/expense.py:760-777 | when the earlier dates pass and this one fails, the refusal is this bill's |
| ClaimAdmission.ParseBillDates | src/routes/expense.py:758-777 | the date loop gives exactly what `BillDates` says, with "invalid date" and "outside the trip" told apart |
| ClaimAdmission.FirstSome | src/routes/expense.py:783-784 | the first value present, and none exactly when none is |
| ClaimAdmission.FirstFileError | src/routes/expense.py:783-784 | no error exactly when every file validates; otherwise the error of the first file that does not |
| ClaimAdmission.Refusals | src/routes/expense.py:783-784 | what validation says of each file, in order |
| ClaimAdmission.ClaimBills | src/routes/expense.py:786-796 | one bill per form entry, with its date, category and amount |
| ClaimAdmission.ClaimBillsTotal | src/routes/expense.py:885-899 | the bills' total is the sum of the amounts |
| ClaimAdmission.Analyses | src/routes/expense.py:810-821 | one analysis per bill |
| ClaimAdmission.AnalysesStep | src/routes/expense.py:810-821 | analysing one more bill appends its analysis with its own category and amount and the user's grade |
| ClaimAdmission.Verdicts | src/routes/expense.py:823-834 | one duplicate verdict per bill |
| ClaimAdmission.VerdictsStep | src/routes/expense.py:823-834 | checking one more bill appends its verdict against the stored claims only |
| ClaimAdmission.VerdictsKeepHashes | src/routes/expense.py:824-834 | every verdict carries the hash of its own bill's file |
| ClaimAdmission.BillNumbers | src/routes/expense.py:837-852 | no more numbers than bills |
| ClaimAdmission.BillNumbersMembers | src/routes/expense.py:837-852 | the numbers collected are exactly those (counted from 1) of the flagged bills, in increasing order |
| ClaimAdmission.BillNumbersAppend | src/routes/expense.py:837-852 | one more bill adds its number exactly when it is flagged |
| ClaimAdmission.BillNumbersStep | src/routes/expense.py:837-852 | numbering one more bill of a list adds its number exactly when it is flagged |
| ClaimAdmission.Blocking | src/routes/expense.py:837 | for each bill, whether its verdict blocks |
| ClaimAdmission.Suspicion | src/routes/expense.py:845 | for each bill, whether its verdict is a duplicate |
| ClaimAdmission.RecommendationsRead | src/routes/expense.py:875 | each bill's recommendation, REVIEW where the reading has none |
| ClaimAdmission.Present | src/routes/expense.py:875 | each recommendation as a reading that is present |
| ClaimAdmission.PresentMembers | src/routes/expense.py:875 | a present reading occurs exactly when its value does |
| ClaimAdmission.CombineRecommendations | src/routes/expense.py:869-882 | the combining loop gives the AI service's combined recommendation of the same readings with no daily violations, and reports a rejection exactly when some bill reads REJECT |
| ClaimAdmission.MissingRecommendationIsReview | src/routes/expense.py:875 | a bill with no recommendation counts as REVIEW for the route but as APPROVE for the AI service's own combination |
| ClaimAdmission.DayEntryAgreesWithSummary | src/routes/expense.py:897-909 | the route's entry for a day has the date, totals and bill count of the AI service's day summary for the same bills |
| ClaimAdmission.TripDays | src/routes/expense.py:893-911 | one entry per day of the trip, first to last, each from the bills of that day |
| ClaimAdmission.RouteBreakdown | src/routes/expense.py:893-911 | the day-by-day loop gives exactly `TripDays` |
| ClaimAdmission.BreakdownTotals | src/routes/expense.py:899 | the breakdown's first days add up to the totals of those days' bills |
| ClaimAdmission.DayTotalsAppend | src/routes/expense.py:897-899 | one more bill adds its amount to the day it is dated, when that day is counted |
| ClaimAdmission.DayTotalsCoverBills | src/routes/expense.py:893-911 | when every bill falls within the days counted, the day totals add up to the bills' total |
| ClaimAdmission.NoBillsNoTotals | src/routes/expense.py:897-899 | with no bills every day totals zero |
| ClaimAdmission.TripDaysCoverBills | src/routes/expense.py:893-911 | when every bill lies within the trip, the breakdown's daily totals add up to the bills' total |
| ClaimAdmission.BreakdownCoversClaim | src/routes/expense.py:885-911 | when every bill date lies within the trip, the daily totals add up to the sum of the amounts |
| ClaimAdmission.AveragePerDay | src/routes/expense.py:887-890 | the average times the trip's length is the total; with no trip it is zero |
| ClaimAdmission.MultiBillRecord | src/routes/expense.py:916-981 | the stored multi-bill claim is submitted now at the MANAGER level, for the user, with the sum of the amounts and the first bill's date and hash, "suspected" exactly when some bill was flagged, no linked original, the combined recommendation, and within limits exactly when no bill was read as REJECT |
| ClaimAdmission.AcceptedBills | src/routes/expense.py:869-1091 | the admitted claim waits for the manager in consistent rows, with the record above, the trip, the flagged bill numbers, the day-by-day breakdown when there is a trip and the average per day |
| ClaimAdmission.CreateMultiBillClaim | src/routes/expense.py:633-1164 | a user who may not claim is refused first, then a bad amount naming its bill; an admitted claim had one amount per bill and as many categories, dates, descriptions and files |
| ClaimAdmission.MultiBillRefusalOrder | src/routes/expense.py:730-784 | after the amounts: mismatched lists, then invalid trip dates, then the first bad bill date, then the first invalid file |
| ClaimAdmission.SomeBillNumbered | src/routes/expense.py:837-857 | some bill is numbered exactly when some flag is set |
| ClaimAdmission.BlockedBillsRefuseClaim | src/routes/expense.py:836-867 | once every field is accepted, the submission is refused exactly when some bill is blocked, and the refusal names every blocked bill and no other |
| ClaimAdmission.BlockedBillNumbers | src/routes/expense.py:836-857 | the blocked numbers are exactly those of the bills whose verdict blocks, and there are some exactly when some bill is blocked |
| ClaimAdmission.AdmittedBills | src/routes/expense.py:667-867 | an admitted claim passed every check: permission, amounts, matching lists, trip, dates, files, and no blocked bill |
| ClaimAdmission.FormReadings | src/routes/expense.py:810-834 | a form whose amounts parse and whose lists match is analysed and checked bill by bill |
| ClaimAdmission.MultiBillClaimAdmitted | src/routes/expense.py:678-1040 | an admitted claim had one amount per comma-separated piece, valid files and every bill dated within the trip; it waits for the manager in consistent rows with the sum of the amounts, one breakdown entry per trip day, and no breakdown or average without a trip |
| ClaimAdmission.MultiBillBreakdownCoversAmount | src/routes/expense.py:885-938 | with a trip, the per-day breakdown adds up to the claim's amount |
| ClaimAdmission.MultiBillClaimRecords | src/routes/expense.py:836-980 | no bill was blocked; the claim is "suspected" exactly when some bill was flagged; it carries the combined recommendation, is within limits exactly when no bill read REJECT, keeps the first file's hash and links no original |
| ClaimAdmission.MultiBillFlaggedBills | src/routes/expense.py:844-852 | the flagged numbers are exactly the bills the full check read as duplicates, in increasing order |
| ClaimAdmission.AdmittedFlagged | src/routes/expense.py:844-852 | the flagged numbers of an admitted claim are numbered from its verdicts |
| ClaimAdmission.SuspectedBillNumbers | src/routes/expense.py:844-852 | the numbers of the flagged bills are exactly those whose verdict is a duplicate, in increasing order |
| ClaimAdmission.SubmitMultiBillClaim | src/routes/expense.py:633-1040 | the route step by step gives exactly `CreateMultiBillClaim` |
| ClaimAdmission.ScreenBills | src/routes/expense.py:806-1040 | screening the accepted bills gives exactly what the intended ruling on them says |
| ClaimAdmission.CheckBills | src/routes/expense.py:806-854 | the loop analyses and checks each bill in order and collects exactly the numbers of the blocked and of the flagged bills |
| ClaimAdmission.NumberBills | src/routes/expense.py:836-852 | the numbering loop collects exactly the numbers of the blocked and of the flagged bills |
| ClaimAdmission.SingleClaimKeywordsAccepted | src/routes/expense.py:343-381 | every keyword the single-bill route passes is an attribute of the expense model |
| ClaimAdmission.MultiBillKeywordsRefused | src/routes/expense.py:921-981 | the multi-bill route passes keywords the expense model does not declare, among them `trip_start_date` |
| ClaimAdmission.CreateMultiBillClaimAsWritten | src/routes/expense.py:921-1164 | as written, a claim could be stored only if the model declared every keyword passed |
| ClaimAdmission.MultiBillNeverStored | src/routes/expense.py:921-1164 | as written, no multi-bill claim is ever stored: what would be admitted ends in the constructor's refusal, and every other submission is refused for the same reason as intended |
| ClaimEdits.AttemptAlerts | src/routes/expense.py:1457-1506 | a refused attempt leaves at most one alert: to the first active manager, naming the claim, and only when the claim has a submission time to format |
| ClaimEdits.Guard | src/routes/expense.py:1440-1512 | the call goes on exactly when the claim exists, belongs to the caller and is submitted; every other case is refused |
| ClaimEdits.EditedFields | src/routes/expense.py:1515-1541 | the update is refused exactly when the date is not in YYYY-MM-DD form; otherwise each given field replaces the old one (the category trimmed and lower-cased, the amount whenever present) and nothing else changes |
| ClaimEdits.Reanalysed | src/routes/expense.py:1544-1571 | a new bill replaces the bill number, vendor, recommendation (REVIEW when missing) and within-limits flag with its analysis under the updated category and amount, and nothing else |
| ClaimEdits.EditedClaim | src/routes/expense.py:1515-1571 | a bad date refuses the edit; an edited claim keeps its id, status and level |
| ClaimEdits.Unrelated | src/routes/expense.py:1693-1699 | exactly the notifications that do not name the claim are kept |
| ClaimEdits.OtherClaims | src/routes/expense.py:1701-1707 | exactly the approval records of other claims are kept |
| ClaimEdits.EditsNeedSubmitted | src/routes/expense.py:1440-1690 | both routes go through only for the owner of a submitted claim; an unknown claim and a stranger's claim are refused with nothing changed; a claim in any other status is refused with its status, adding only the alert |
| ClaimEdits.UpdateChangesOnlyFields | src/routes/expense.py:1515-1577 | an update keeps the approval records, the notifications, the claim's identity, status, level, submission time, content hash and duplicate status; without a new bill it keeps the analysis fields too; a refused update leaves the claim as it was |
| ClaimEdits.EditedFieldsSettled | src/routes/expense.py:1515-1541 | laying an update's fields over a claim that already carries them changes nothing |
| ClaimEdits.ReanalysedSettled | src/routes/expense.py:1544-1571 | reading the same bill again gives the same fields |
| ClaimEdits.UpdateIdempotent | src/routes/expense.py:1415-1600 | sending the same update again, once it has gone through, changes nothing more |
| ClaimEdits.OtherClaimsOfOwnRecords | src/routes/expense.py:1701-1707 | removing a claim's records from records that all belong to it leaves none |
| ClaimEdits.DeleteRemovesClaim | src/routes/expense.py:1693-1719 | a deletion leaves no claim, no approval record of it and no notification naming it, and keeps every other record and notification |
| ClaimEdits.DeletedClaimIsGone | src/routes/expense.py:1440-1622 | a deleted claim can be neither updated nor deleted again |
| ClaimEdits.FieldsKeepConsistent | src/routes/expense.py:1515-1577 | changing a claim's fields other than its identity, status and level, or adding notifications, keeps the workflow invariant |
| ClaimEdits.UpdatePreservesConsistent | src/routes/expense.py:1415-1600 | an update keeps the workflow invariant |
| ClaimEdits.DeletePreservesConsistent | src/routes/expense.py:1603-1738 | a deletion keeps the workflow invariant |
| ClaimEdits.SendAttemptAlert | src/routes/expense.py:1457-1506 | the attempt alert is appended and nothing else changes |
| ClaimEdits.ApplyFields | src/routes/expense.py:1515-1541 | assigning the fields one by one gives exactly `EditedFields` |
| ClaimEdits.ReadNewBill | src/routes/expense.py:1544-1571 | assigning the new bill's reading field by field gives exactly `Reanalysed` |
| ClaimEdits.CheckEditable | src/routes/expense.py:1440-1512 | the guards refuse exactly as `Guard` says, leaving the alert; a call that passes changes nothing; the invariant is kept |
| ClaimEdits.ApplyEdit | src/routes/expense.py:1515-1571 | the edit on a working copy gives exactly `EditedClaim` |
| ClaimEdits.UpdateExpense | src/routes/expense.py:1415-1600 | the route changes the rows exactly as the update step says, answers with its refusal or the stored claim, and keeps the invariant |
| ClaimEdits.DeleteExpense | src/routes/expense.py:1603-1738 | the route changes the rows exactly as the delete step says, answers with its refusal or the claim's number, and keeps the invariant |
| NotificationRoutes.Owned | src/routes/notification.py:228-231 | the user's rows, in table order, never more than the table |
| NotificationRoutes.OwnedMembers | src/routes/notification.py:228-231 | the user's rows are exactly the rows of the table the user owns |
| NotificationRoutes.OwnedSingle | src/routes/notification.py:228-231 | a single row is the user's exactly when the user owns it |
| NotificationRoutes.ReadPlusUnread | src/routes/notification.py:303-315 | each of the user's rows is either read or unread, so the two counts add up to the total |
| NotificationRoutes.NoUnread | src/routes/notification.py:181-187 | the unread count is zero exactly when every row of the user is read |
| NotificationRoutes.FindOwned | src/routes/notification.py:140-148 | the first row with the id that belongs to the user, and none exactly when there is no such row |
| NotificationRoutes.MarkOneEffect | src/routes/notification.py:124-166 | a row the user does not own, or that does not exist, is refused; otherwise the row becomes read with the same content, the answer says whether it already was, an already read row keeps its first read time, and every other row stays |
| NotificationRoutes.MarkOneIdempotent | src/routes/notification.py:151-158 | marking the same row again reports it as already read and changes nothing |
| NotificationRoutes.FindOwnedAfterUpdate | src/routes/notification.py:140-158 | changing a row without changing its id or owner leaves the lookup where it was |
| NotificationRoutes.MarkAll | src/routes/notification.py:193-200 | every unread row of the user is read now, and every other row stays as it was |
| NotificationRoutes.MarkAllEffect | src/routes/notification.py:169-209 | afterwards the user has nothing unread; other users' rows and rows already read stay; marking all again changes nothing; with nothing unread the table is unchanged |
| NotificationRoutes.MarkAllKeepsOthers | src/routes/notification.py:193-200 | marking all keeps every other user's unread count and the number of the user's rows |
| NotificationRoutes.DeleteOne | src/routes/notification.py:212-247 | refused exactly when the user has no row of that id; otherwise exactly that row is removed |
| NotificationRoutes.DeleteOneEffect | src/routes/notification.py:212-247 | with distinct ids a deleted row cannot be deleted again, and every other user's rows stay |
| NotificationRoutes.OwnedSplice | src/routes/notification.py:239 | removing another user's row keeps the user's rows |
| NotificationRoutes.OwnedAppend | src/routes/notification.py:228-231 | the user's rows of two tables joined are the user's rows of each, joined |
| NotificationRoutes.Cleared | src/routes/notification.py:270-277 | the table without the user's rows is no longer than the table |
| NotificationRoutes.ClearedEffect | src/routes/notification.py:250-285 | clearing removes exactly the user's rows, as many as the count reported, and keeps every other user's rows in order |
| NotificationRoutes.ClearedNone | src/routes/notification.py:267-273 | clearing a user without rows keeps the table |
| NotificationRoutes.Stats | src/routes/notification.py:288-332 | the total, unread and read counts of the user's rows, and one count per notification type the user has, each the number of rows of that type |
| NotificationRoutes.PathInt | src/routes/notification.py:212-214 | an empty segment is no integer, and a segment of decimal digits reads as its decimal value |
| NotificationRoutes.ClearAllUnreachable | src/routes/notification.py:212-285 | as declared, no DELETE path reaches clear-all, and DELETE /clear-all is refused by the other route's integer check |
| NotificationRoutes.DispatchDelete | src/routes/notification.py:212-285 | with the literal route declared first, DELETE /clear-all reaches clear-all |
| NotificationRoutes.DispatchDeleteAgrees | src/routes/notification.py:212-285 | with the literal route first, exactly "clear-all" reaches clear-all and every other path goes where it went before |
| NotificationRoutes.Inbox.constructor | src/routes/notification.py:140-143 | the table starts with the given rows |
| NotificationRoutes.Inbox.MarkNotificationRead | src/routes/notification.py:124-166 | the route changes the table exactly as `MarkOne` says and answers with its refusal or whether the row was already read |
| NotificationRoutes.Inbox.MarkAllNotificationsRead | src/routes/notification.py:169-209 | the route answers with the user's unread count and leaves the table as `MarkAll` says |
| NotificationRoutes.Inbox.DeleteNotification | src/routes/notification.py:212-247 | the route changes the table exactly as `DeleteOne` says |
| NotificationRoutes.Inbox.ClearAllNotifications | src/routes/notification.py:250-285 | the route answers with the number of the user's rows and leaves the table as `Cleared` says |
| AdminRoutes.LeadingDigits | src/routes/admin.py:74 | the longest prefix of decimal digits: all digits, and followed by a non-digit or the end |
| AdminRoutes.LeadingDigitsOfDigits | src/routes/admin.py:74 | a string of digits is its own leading digits |
| AdminRoutes.EmployeeNumber | src/routes/admin.py:72-76 | a code carries a number exactly when it starts with "EMP" followed by a digit |
| AdminRoutes.EmployeeNumbers | src/routes/admin.py:70-77 | the numbers collected are no more than the codes |
| AdminRoutes.EmployeeNumbersMembers | src/routes/admin.py:70-77 | a number is collected exactly when some code carries it |
| AdminRoutes.Max | src/routes/admin.py:81 | the maximum is one of the numbers and no number exceeds it |
| AdminRoutes.NextEmployeeNumber | src/routes/admin.py:80-85 | the next number is at least 1 |
| AdminRoutes.NextEmployeeId | src/routes/admin.py:88 | the new code is "EMP" and at least three digits |
| AdminRoutes.NextEmployeeIdFresh | src/routes/admin.py:50-90 | the new code carries the next number, which is above every number in use, so it equals no existing code |
| AdminRoutes.NextEmployeeIdStart | src/routes/admin.py:61-85 | with no numbered code the first code is EMP001, and an unnumbered code does not change the next one |
| AdminRoutes.NoEmployeeNumbers | src/routes/admin.py:72-77 | codes without a number contribute no number |
| AdminRoutes.GenerateNextEmployeeId | src/routes/admin.py:50-90 | the loop over the codes returns exactly `NextEmployeeId` |
| AdminRoutes.Codes | src/routes/admin.py:67 | the employee code of each row, in table order |
| AdminRoutes.FindUser | src/routes/admin.py:620-627 | the first row with the id, and none exactly when no row has it |
| AdminRoutes.FindUserAfterUpdate | src/routes/admin.py:620-635 | changing a row without changing its id keeps the lookup by id |
| AdminRoutes.SwitchesEffect | src/routes/admin.py:600-762 | a caller who is not an administrator is refused, then an unknown user; deactivating or changing the role of one's own account is refused while switching one's own claim permission is not; each switch flips or sets the one column of the one row and keeps every other row |
| AdminRoutes.TogglesAreInvolutions | src/routes/admin.py:635-689 | toggling the active flag or the claim permission twice gives back the table |
| AdminRoutes.DeactivatedCannotLogin | src/routes/admin.py:600-635 | a user who was active and is toggled cannot log in |
| AdminRoutes.NewUserRefusals | src/routes/admin.py:281-326 | the refusals come in the route's order: a caller who is not an administrator, a username in use, an email in use, a role that is not one lower-cased, a grade that is not one upper-cased |
| AdminRoutes.NewUserEffect | src/routes/admin.py:262-360 | a created user is inactive, waiting for a password and unable to log in, has a parsed role and a known grade, an employee code, username and email no other row has, and an invitation whose expiry is the local clock plus seven days, valid at a UTC instant exactly when that instant is before it |
| AdminRoutes.UserTable.constructor | src/routes/admin.py:262-360 | the table starts with the given rows |
| AdminRoutes.UserTable.ToggleUserActive | src/routes/admin.py:600-660 | the route changes the table exactly as `ToggleActive` says and answers with the new flag |
| AdminRoutes.UserTable.ToggleClaimPermission | src/routes/admin.py:661-712 | the route changes the table exactly as `ToggleClaim` says and answers with the new permission |
| AdminRoutes.UserTable.UpdateUserRole | src/routes/admin.py:715-778 | the route changes the table exactly as `ChangeRole` says and answers with the new role |
| AdminRoutes.UserTable.CreateNewUser | src/routes/admin.py:262-360 | the route answers as `NewUser` and, when it succeeds, appends exactly that row |
| AuthRoutes.Otp | src/routes/auth.py:53-55 | the code is six digits, each the value of its draw |
| AuthRoutes.OtpCoversAllCodes | src/routes/auth.py:53-55 | every six-digit string is the code of some draws |
| AuthRoutes.GeneratedOtpFitsRequest | src/routes/auth.py:44-46 | every generated code fits the six-character bound of the reset request |
| AuthRoutes.FindByToken | src/routes/auth.py:292-298 | the first row holding the invitation token, and none exactly when no row holds it |
| AuthRoutes.FindByEmail | src/routes/auth.py:465-471 | the first row with the email, and none exactly when no row has it |
| AuthRoutes.FindByEmailAfterUpdate | src/routes/auth.py:465-507 | changing a row without changing its email keeps the lookup by email |
| AuthRoutes.FindByLogin | src/services/auth_service.py:38-40 | the first row whose username or email is the given name, and none exactly when no row has it |
| AuthRoutes.Authenticate | src/services/auth_service.py:38-56 | a user exactly when the name finds a row, the password matches and the row is active, and then that row |
| AuthRoutes.Login | src/routes/auth.py:228-262 | a user is let in exactly when the name finds a row, the password matches and the row may log in; an unknown name, a wrong password or an inactive row is refused as bad credentials; an active row that may not log in is refused as not activated |
| AuthRoutes.SetPasswordEffect | src/routes/auth.py:269-360 | refusals change nothing and come in order: differing passwords, unknown token, expired invitation, password already set; success changes only the token holder's row, which gets the new hash, holds no token and can log in |
| AuthRoutes.InvitationSingleUse | src/routes/auth.py:321-325 | with unique tokens, the same invitation used again finds no row |
| AuthRoutes.PendingRowLogsInAfterAcceptance | src/routes/auth.py:228-325 | an inactive row holding an invitation token and a login name no other row has is refused at login as bad credentials, and once its invitation is accepted while valid it is let in |
| AuthRoutes.InvitedUserLogsInOnlyAfterSettingPassword | src/routes/auth.py:228-325 | a user an administrator created is refused at login as bad credentials, being inactive, until the invitation is accepted before its local-clock expiry, and is let in afterwards |
| AuthRoutes.ForgotPasswordEffect | src/routes/auth.py:363-440 | an unknown address is answered as a known one and changes nothing; an inactive account is refused; otherwise only that row gets the code's hash, with an expiry of the local clock plus fifteen minutes, valid at a UTC instant exactly when that instant is before it, stored even when the mail fails |
| AuthRoutes.ResetPasswordEffect | src/routes/auth.py:443-537 | an expired code is cleared and refused, a wrong code is refused and kept, a right code in time sets the password and is cleared; the other refusals change nothing and the refusals come in the route's order |
| AuthRoutes.ResetCodeSingleUse | src/routes/auth.py:479-507 | after a reset or an expired code the next reset for the address finds no request |
| AuthRoutes.ForgotThenReset | src/routes/auth.py:363-537 | a code requested for an active account resets the password when it comes back and matches at a UTC instant before its local-clock expiry |
| AuthRoutes.OtpExpiredWhenIssuedBehindUtc | src/routes/auth.py:400 | on a server whose local clock runs fifteen minutes or more behind UTC, a code just issued to an active account is refused as expired at every later instant |
| AuthRoutes.OtpValidForLifetimeOnUtcClock | src/models/user.py:114-120 | with the expiry taken from the UTC clock, a code is refused from fifteen minutes after issue on, and only as expired, and accepted before |
| AuthRoutes.Accounts.constructor | src/routes/auth.py:269-360 | the table starts with the given rows |
| AuthRoutes.Accounts.SetPasswordFromInvitation | src/routes/auth.py:269-360 | the route changes the table and refuses exactly as `SetPassword` says |
| AuthRoutes.Accounts.RequestPasswordReset | src/routes/auth.py:363-440 | the route changes the table and refuses exactly as `ForgotPassword` says |
| AuthRoutes.Accounts.ResetPasswordWithOtp | src/routes/auth.py:443-537 | the route changes the table and refuses exactly as `ResetPassword` says |

## Left out

- Input and output are outside the model: the database session, commits, logging, the audit log and the HTTP framework. A route is a method over in-memory tables. A refusal is an error value, not an HTTP status. Message texts are not modelled.
- Email (`src/services/email_service.py` and the inline mails of the routes), Elasticsearch indexing, and the Gemini and OCR calls. The AI's reading of a bill arrives as a value. Of the AI's reply the model keeps the code-fence cleanup and the extraction of the brace span (`src/services/ai_service.py:624-647`); `json.loads` of that span and its fallback on invalid JSON (`src/services/ai_service.py:652-667`) are not modelled, nor is the model call.
- File storage: saving, reading and deleting files on disk, and the stored path. The size of a file and its SHA-256 hash arrive as parameters.
- `src/database/setup_database.py` is not part of this model. Nor are `src/routes/reports.py`, the middleware, or the read-only listing routes. The listing routes left out are `get_my_notifications`, `get_unread_count`, `get_all_users`, `get_user_details`, `get_next_employee_id`, `get_system_stats`, `resend_invitation`, `update_user_grade` and `delete_user`.
- Concurrency. Two requests racing on the same row are not modelled. Each route runs alone against the tables.
- Floating point. Amounts are exact reals, so rounding of sums and of `round(average_per_day, 2)` is not modelled. `float()` spellings with exponents, `inf`, `nan` or underscores are not parsed.
- Dates arrive already parsed by `strptime` as day numbers, or as a parse failure.
- `lower()`, `upper()` and `strip()` act on ASCII letters and ASCII whitespace only. `\d` matches ASCII digits only.
- Columns the model does not keep: `updated_at`, `travel_from`/`travel_to`, `department`, `phone`, `last_login`, `password_set_at`, `last_password_reset`, and `invitation_sent_at`. The database's enum constraints on columns are not modelled either.
- Password hashing and verification, token generation and the OTP's random draws are parameters.
- AdminRoutes.GenerateNextEmployeeId: the fallback to a timestamp-based code when the database query raises (src/routes/admin.py:92-97) is not modelled, because the query is outside the model.
- FileHandler.ValidateFile uses the written-out list of allowed extensions. That list is proved equal to the parsed `ALLOWED_EXTENSIONS` setting.
- `ExpenseService`: `delete_expense` only deletes the row and its index entry, so it is not modelled. `validate_expense_claim` delegates to `ValidationService.ValidateExpenseLimits`, which is modelled.
- ClaimAdmission.Amounts: the list and non-string branches of the multi-bill amount parsing (src/routes/expense.py:699-723) are not modelled. `amounts` is declared as a string form field (src/routes/expense.py:642), so those branches cannot be reached.
- ClaimAdmission.CheckBills numbers the bills in a second pass over the verdicts (`NumberBills`). The source does it inside the same loop. The resulting bill numbers and verdicts are the same.
- ClaimEdits.UpdateExpense keeps the old `file_hash` when a new bill is uploaded and does not re-run the duplicate check, as the source does.
- ClaimEdits.CheckEditable: an edit or deletion is allowed at any review level while the status is "submitted". The code checks only the status; it does not require the claim to be at the manager level. The model follows the code.
- ApprovalRoutes.GetPendingApprovals: the second query for the claims' details and the response formatting (src/routes/approval.py:61-100) are not modelled.
- ApprovalRoutes.RejectExpense: the AI summary of the rejection and the rejection email are not modelled. The service object has no `generate_rejection_reason` (`src/services/ai_service.py:28-684`), so as written the call at `src/routes/approval.py:452` always raises and only the fallback reason is reachable (see Findings). The model keeps the generated reason as a parameter, `None` standing for the call that raised, so that the intended behaviour is covered too.
- NotificationService.LevelRole maps only the lower-case level names, as the source does. The routes pass upper-case levels, so the service's per-level lookup finds no role for them. The approval route notifies the finance users itself.

## Findings

| source | as written | input that shows it | evidently intended | confidence | as-written member | corrected member |
|---|---|---|---|---|---|---|
| src/routes/expense.py:921-981 | the multi-bill route builds `Expense(...)` with keywords the model does not declare: `trip_start_date`, `is_multi_bill`, `bill_count`, the per-day fields. SQLAlchemy's default constructor raises `TypeError` on such a keyword, the handler at lines 1157-1164 rolls back, and the route answers 500 | any multi-bill claim that passes every check, for example one bill within limits with no duplicate | the claim is stored with its trip, bill count and per-day breakdown | high that the keywords are undeclared (src/models/expense.py:50-112); not executed | ClaimAdmission.MultiBillNeverStored | ClaimAdmission.CreateMultiBillClaim |
| src/routes/notification.py:212-251 | `DELETE /{notification_id}` is declared before `DELETE /clear-all`. The router tries routes in declaration order, so `/clear-all` matches the parameterised route. Its `int` validation then fails with 422 | `DELETE /notifications/clear-all` | clear-all deletes the caller's notifications, so the literal route should be declared first | medium: depends on the framework's first-match routing; not executed | NotificationRoutes.ClearAllUnreachable | NotificationRoutes.DispatchDeleteAgrees |
| src/routes/auth.py:400 | the reset code's expiry is `datetime.now() + 15 minutes`, the server's local clock, while `is_reset_token_valid` compares it with `datetime.utcnow()` (src/models/user.py:120). On a server behind UTC the code lives fifteen minutes minus the offset; ahead of UTC, fifteen minutes plus it. The invitation expiry at src/routes/admin.py:330 is skewed the same way | a server in UTC-05:00: a code issued at 10:00 local time (15:00 UTC) expires at 10:15, already earlier than the first UTC check | both readings on one clock, so that a code lives fifteen minutes | high that the two clocks differ off UTC; not executed | AuthRoutes.OtpExpiredWhenIssuedBehindUtc | AuthRoutes.OtpValidForLifetimeOnUtcClock |
| src/routes/approval.py:450-464 | `reject_expense` awaits `ai_service.generate_rejection_reason(...)`, but the `AIService` class (src/services/ai_service.py:28-684) defines no such method. The attribute lookup raises `AttributeError`, the `except Exception` at lines 462-464 catches it, and every rejection stores and sends the fallback reason | any rejection of a claim with a pending record at the reviewer's level | a reason written by the AI service, as tests/test_ai_service.py:107-125 expects of the method | high that the method is missing; not executed | ApprovalRoutes.GeneratedReasonNeverStored | ApprovalRoutes.GeneratedReasonStored |
