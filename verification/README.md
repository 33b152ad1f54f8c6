# RE-OS: a verified model of the backend's stateful core

RE-OS is a multi-tenant real-estate platform (NestJS backend, Next.js frontend). This project models, in Dafny, the
parts of it that carry state, protocol or format logic, and proves what they keep over every run and every input.

The shape is the same for the three services. A `...Model` module gives the tables as values and each service call as
a function from a state to a state and an outcome, with the branches, constants and errors of the code. A
`...Service` module holds a class whose methods update the tables in place, in the order the code does, and whose
contracts tie the new state and the outcome to that function. A `...Calls` module proves, for the functions, what each
call means for its caller. The class's `Valid()` is the invariant of the theorems; each call keeps it and promises that
meaning, and `Serve` handles any sequence of requests and goes through exactly the states of the run. Stores without
tokens, failed logins, tenants or conversations satisfy it (`NoTokensIsSound`, `NoFailuresIsSound`, and `EmptyIsSound`
of the billing and chat invariants). The remaining modules prove theorems about all runs. Clocks, permission checks,
payment-provider answers and random draws are parameters; `Fresh` says that a random draw has not been drawn before.

| modules | what they are about |
|---|---|
| `AuthModel`, `AuthService`, `AuthCalls`, `AuthFamilies`, `AuthLockout` | refresh-token families with reuse detection (section 4.14.2 of RFC 9700) and the login lockout |
| `BillingModel`, `BillingService`, `BillingCalls`, `BillingInvariants`, `BillingLedger`, `BillingQuota`, `Calendar` | subscriptions mirrored on the organization row, the webhook ledger, quota limits on both sides, billing periods (section 21.4.1 of ECMA-262) |
| `ChatModel`, `ChatService`, `ChatCalls`, `ChatInvariants`, `ChatCursors`, `ChatRoundRobin`, `ChatUnread`, `ChatBadges`, `ChatSanitize`, `ChatSchemes` | conversations, assignment log, read cursors, round-robin auto-assignment, unread badges, the message sanitiser |
| `AuditCsv` | the audit export against a reader for section 2 of RFC 4180 |
| `Utf8`, `PdfStrings`, `PdfObjects`, `PdfContent`, `InvoiceObjects`, `InvoicePdf` | the invoice PDF against a reader with its own keywords for sections 7.2 (tokens), 7.3 (objects, strings, streams), 7.5.4 and 7.5.5 (cross-reference table and trailer), 7.7 (catalog and pages) and 7.8.2 (content streams) of ISO 32000-1 |
| `TtlCache`, `AnalyticsKey` | the memory cache against its history, and the canonical analytics key |
| `Analytics` | lead KPIs, funnel and employee table against the list of inquiries |
| `Common` | shared datatypes and arithmetic |

## Where the code does less than expected

Each of these is proved from the code as it is, with the exact condition where one exists.

- Invoices and payments stay in bijection exactly when no delivery carries a payment id already recorded
  (`BijectionIffNoCollision`). The payment id column is unique, the invoice is written first and the two writes are
  not one transaction, so a second event for the same payment leaves an invoice marked paid without a
  payment, and every retry leaves another (`TwoEventsOnePayment`, `CollisionRepeats`).
- The usage page shows the plan that is enforced exactly unless an active subscription is on a plan whose code is a
  legacy tier name (`ShownPlanIsEnforced`, `AliasedPlanExample`): the enforcing side maps `basic` to `starter`, and
  nothing reserves the code `basic`.
- An invoice line reads back from the PDF exactly when it has no carriage return (`RoundTripIffNoCr`): the reader of a
  literal string turns an unescaped CR or CR LF into LF, and the writer escapes only backslashes and parentheses.
- The sender of a message has read it exactly when they sent it through `sendMessage` and take part in the
  conversation (`SenderHasReadExactly`): a first message written by `create` leaves its author with an unread badge,
  and so does sending without a participant row.
- `closed_at` set does not mean closed: a step reopens a closed conversation and keeps its closing time exactly when
  it is an assignment, or a status update to another status than the two closed ones, that goes through
  (`ReopenedWithClosingTime`).
- A visitor's message without content is refused, yet reopens a closed conversation (`SendPublicMeans`).
- A sanitised message can hold a stripped scheme: exactly when the tagless text spells it over what the two
  scheme replacements leave (`OutputHoldsScheme`, `SchemeIsLeft`).
- A value whose computation began before an invalidation and ended after it is cached and served
  (`InFlightValueOutlivesInvalidation`): "not since invalidated" counts from the put. A hit is stale exactly when an
  invalidation of its key lies between its lookup and its put (`HitIsStaleExactly`).

## Model

| member | source | states |
|---|---|---|
| AuthFamilies.EveryRunKeepsFamilies | backend/src/modules/auth/auth.service.ts:374-482 | Over every run, a family has one user and at most one unrevoked token; rows are never rewritten, `revoked_at` is set once, and a family without a live token never gets one |
| AuthFamilies.StepKeeps | backend/src/modules/auth/auth.repository.ts:157-195 | Each single call keeps that invariant and that evolution |
| AuthFamilies.ExchangedAtMostOnce | backend/src/modules/auth/auth.service.ts:374-463 | In any run a given refresh token is exchanged successfully at most once |
| AuthFamilies.FamilyIsKilled | backend/src/modules/auth/auth.service.ts:381-402 | Presenting a revoked token, or logging out a live one, leaves its family known and without a live token |
| AuthFamilies.KilledFamilyNeverMints | backend/src/modules/auth/auth.service.ts:374-482 | After that, no later step of any run adds or revives a token in that family |
| AuthFamilies.RefreshHandsOver | backend/src/modules/auth/auth.service.ts:374-463 | Exactly when a refresh succeeds, and that the new token is then the family's only live one, for the same user and for seven days |
| AuthFamilies.EveryRunKeepsUsers | backend/src/modules/auth/auth.service.ts:411-412 | Over every run each token row names a user that exists |
| AuthFamilies.RefreshSucceedsExactly | backend/src/modules/auth/auth.service.ts:374-463 | So in every reachable state a refresh succeeds exactly for a live, unexpired token (and a configured signing key) |
| AuthFamilies.RevokedExactly | backend/src/modules/auth/auth.service.ts:374-482 | Exactly which live tokens a call revokes (the one a good refresh or a logout presents, or the whole family of a revoked one presented), each marked with the call's time |
| AuthFamilies.TokenIsGoodForAWeek | backend/src/modules/auth/auth.service.ts:224-240 | In any run, a token handed out by login, invitation or refresh and not revoked since is exchanged exactly up to 604800000 ms after it was handed out |
| AuthLockout.CounterStep | backend/src/modules/auth/auth.repository.ts:55-74 | Exactly which calls touch an account's counter and lock, and how |
| AuthLockout.EveryRunKeepsLocks | backend/src/modules/auth/auth.service.ts:176-193 | Over every run the counter is 5 or more exactly when `locked_until` is set |
| AuthLockout.LockedAttemptChangesNothing | backend/src/modules/auth/auth.service.ts:157-167 | A login during the lock is refused whatever the password and changes no state |
| AuthLockout.LockoutBound | backend/src/modules/auth/auth.service.ts:157-193 | Without a success or reset, the n-th evaluated wrong password comes at least n - 5 lockouts after the fifth |
| AuthLockout.GuessBudget | backend/src/modules/auth/auth.service.ts:30-36 | So a stretch of time of a given length admits at most 5 + length / 15 min evaluated guesses |
| AuthService.Store.RevokeRefreshToken | backend/src/modules/auth/auth.repository.ts:179-184 | Revokes the one row with the hash, and only if it is unrevoked |
| AuthService.Store.RevokeRefreshTokenFamily | backend/src/modules/auth/auth.repository.ts:186-195 | The loop over rows revokes exactly the unrevoked rows of that user and family |
| AuthService.Store.Login | backend/src/modules/auth/auth.service.ts:134-263 | In-place login: keeps the invariants, moves every account's counter and lock by the lockout rules, on success leaves an unlocked account with that password and a live token for it that is good for seven days, on failure the same tokens |
| AuthCalls.LoginMeans | backend/src/modules/auth/auth.service.ts:134-263 | Exactly when a login succeeds and for which user, that it starts a family with one live token good for seven days, and that every other token stays |
| AuthModel.FoundIsFirst | backend/src/modules/auth/auth.repository.ts:14-23 | The user found by email and tenant is the first active or invited one not deleted; none is found exactly when there is none |
| AuthCalls.LoginRefusals | backend/src/modules/auth/auth.service.ts:134-245 | Every reason a login is refused for, in the order in which they count |
| AuthService.Store.Refresh | backend/src/modules/auth/auth.service.ts:374-463 | In-place rotation: succeeds exactly for a live unexpired token, then the new token is the family's only live one, good for seven days; rows only ever gain a revocation |
| AuthService.Store.Logout | backend/src/modules/auth/auth.service.ts:465-482 | In-place logout: a live token's family has no live token left and every other token stays; any other token changes nothing |
| AuthService.Store.AcceptInvitation | backend/src/modules/auth/auth.service.ts:543-623 | In-place acceptance keeps the invariants and leaves every lock alone; the user is active with the password, holds a live token good for seven days on success, and the link never works again |
| AuthCalls.AcceptMeans | backend/src/modules/auth/auth.service.ts:543-623 | Exactly when an invitation is accepted and which rows change; the link is used up even when no token could be signed |
| AuthService.Store.ResetPassword | backend/src/modules/auth/auth.service.ts:664-686 | In-place reset keeps the invariants: a link works exactly once, sets the password and lifts the lock |
| AuthCalls.ResetMeans | backend/src/modules/auth/auth.service.ts:664-686 | Exactly when a reset succeeds; every refresh token, live ones included, stays, and no other user changes |
| AuthService.Store.Serve | backend/src/modules/auth/auth.service.ts:134-686 | Any sequence of requests with new draws takes the class through exactly the states of the run, with the invariants kept and tokens only gaining revocations and rows |
| BillingInvariants.EveryRunIsMirrored | backend/src/modules/billing/billing.repository.ts:40-115 | Over every run a tenant has at most one live subscription, and an undeleted organization shows that subscription's status and plan code |
| BillingInvariants.StepKeeps | backend/src/modules/billing/billing.service.ts:173-330 | Each call (register, subscribe, change, cancel, webhook, plan administration) keeps that |
| BillingInvariants.RegisterKeeps | backend/src/modules/auth/auth.repository.ts:268-354 | The initial organization and trial subscription satisfy it |
| BillingInvariants.WebhookTouchesOneTenant | backend/src/modules/billing/billing.service.ts:462-653 | A webhook changes no other tenant's rows and no other event's row; rows it adds belong to that tenant |
| BillingInvariants.EveryPeriodEndsLater | backend/src/modules/billing/billing.service.ts:64-69 | Over every run each subscription's period ends after it starts |
| BillingLedger.WebhookLedger | backend/src/modules/billing/billing.service.ts:403-439 | Exactly which deliveries append an invoice and a payment, and which outcome they get |
| BillingLedger.ProcessedAtMostOnce | backend/src/modules/billing/billing.service.ts:403-439 | However often an event is delivered in a run, it is processed at most once |
| BillingLedger.FailedIsRetryable | backend/src/modules/billing/billing.repository.ts:229-270 | In any run, an event that failed and has not been processed since is processed at its redelivery exactly when it then applies without error |
| BillingLedger.EveryRunConserves | backend/src/modules/billing/billing.service.ts:546-583 | Over every run the payments added are the processed captures in order, revenue grows by their sum, and every invoice has total = subtotal + tax with 18% GST rounded half up |
| BillingLedger.EveryInvoiceIsPriced | backend/src/modules/billing/billing.service.ts:71-76 | Every invoice a run adds was written by a capture of the run for the subscription it names, under that capture's number, at the price the plan had then: `monthly`, or for a year `yearly` or else ten months, with 18% tax rounded half up |
| BillingLedger.BijectionIffNoCollision | backend/src/modules/billing/billing.service.ts:546-583 | Invoices and payments stay in one-to-one correspondence exactly when no delivery repeats a recorded payment id |
| BillingLedger.PaidIffAsMany | backend/src/modules/billing/billing.repository.ts:117-199 | Payments point at distinct invoices, so all invoices are paid exactly when there are as many payments |
| BillingLedger.CollisionRepeats | backend/src/modules/billing/billing.repository.ts:173-199 | A collision leaves an invoice marked paid without a payment, and the retry collides again |
| BillingLedger.TwoEventsOnePayment | backend/src/modules/billing/billing.service.ts:469-475 | Two events announcing one payment are such a collision |
| BillingService.Store.CreateOrReplaceSubscription | backend/src/modules/billing/billing.repository.ts:40-85 | The in-place transaction soft-deletes, inserts and mirrors as one step, or changes nothing |
| BillingCalls.UpdateMeans | backend/src/modules/billing/billing.repository.ts:87-115 | A coherent rewrite goes through exactly for an undeleted row; the tenant is then on the new row's plan, the organization shows it, and no other tenant changes |
| BillingService.Store.Subscribe | backend/src/modules/billing/billing.service.ts:173-249 | In-place call keeps the invariants; exactly when it succeeds, else why not, and that the tenant is then on that plan for one period from now, on trial for 14 days unless free, as the organization shows |
| BillingService.Store.ChangePlan | backend/src/modules/billing/billing.service.ts:251-299 | In-place call keeps the invariants; an offered plan replaces the current one on the same live row, active for one period from now |
| BillingService.Store.Cancel | backend/src/modules/billing/billing.service.ts:301-330 | In-place call keeps the invariants; the live row stays the live one on its plan, ends with the period by default, or is cancelled at once on both rows |
| BillingCalls.CaptureMeans | backend/src/modules/billing/billing.service.ts:546-620 | A capture goes through exactly when its invoice number and payment id are new; it pays for the one invoice it writes, at the plan's price and tax, by the amount announced or else the invoice's total; the subscription is renewed for one period on both rows and only its tenant is touched |
| BillingCalls.FailureMeans | backend/src/modules/billing/billing.service.ts:622-653 | A failed payment leaves the ledger alone, notes one attempt at the amount announced or else the plan's price, and shows the tenant past due on both rows |
| BillingCalls.EventMeans | backend/src/modules/billing/billing.service.ts:462-508 | What each event does: captures and failures as above, a renewal or activation one more period, a cancellation the end on both rows, any other event nothing; and why an event without a subscription is refused |
| BillingCalls.WebhookRemembers | backend/src/modules/billing/billing.service.ts:403-439 | An unsigned delivery and a duplicate leave no trace; another is kept under its event id, done exactly when processed, else with its error |
| BillingCalls.RegisterMeans | backend/src/modules/auth/auth.repository.ts:268-354 | A new organization starts on the starter plan, on trial for 14 days, with one employee and nothing else used |
| BillingCalls.CreatePlanMeans | backend/src/modules/billing/billing.service.ts:709-726 | A plan is created exactly under a new code |
| BillingCalls.UpdatePlanMeans | backend/src/modules/billing/billing.service.ts:739-772 | A plan's code never changes, and a plan with a live, uncancelled subscription cannot be deactivated |
| BillingService.Store.ProcessRazorpayWebhook | backend/src/modules/billing/billing.service.ts:403-439 | In-place processing equals the model step; a duplicate changes nothing, a processed one is marked |
| BillingService.Store.PaidRevenue | backend/src/modules/billing/billing.service.ts:655-661 | The summing loop yields the amounts of the captured payments |
| BillingService.Store.Serve | backend/src/modules/billing/billing.service.ts:173-653 | Any sequence of requests takes the class through exactly the states of the run, invariants kept; the payments gained are the captures processed |
| BillingService.EventRowIsIrrelevant | backend/src/modules/billing/billing.service.ts:403-439 | Writing the event row before applying the event does not change what the event does |
| BillingQuota.ShownPlanIsEnforced | backend/src/modules/billing/quota.service.ts:41-66 | The usage page's plan is the enforced plan exactly unless an active subscription is on an aliased plan code |
| BillingQuota.EveryRunShowsEnforcedPlan | backend/src/modules/billing/billing.service.ts:378-401 | The same in every reachable state |
| BillingQuota.ChangeToLegacyCode | backend/src/modules/platform/org-tier.ts:5-16 | Changing to an active plan with the legacy code leads to that exception |
| BillingQuota.AliasedPlanExample | backend/src/modules/platform/org-tier.ts:5-16 | A run from the empty store (two plans, a registration, a change of plan) after which the page shows other limits than the server enforces |
| BillingQuota.ClientMatchesServer | frontend/lib/quota.ts:15-43 | On the same plan and not read-only, the client calls a resource exhausted exactly when the server refuses one more |
| BillingQuota.LimitIsEnforced | backend/src/modules/billing/quota.service.ts:68-165 | The server refuses everything of a suspended or cancelled tenant, and else exactly what is too much, in numbers: counts between 0 and 2147483647, AI minutes, storage |
| BillingQuota.ExhaustedExactly | frontend/lib/quota.ts:15-43 | The client calls a resource exhausted exactly when one more is too much in the same numbers |
| BillingQuota.EnforcedPlanIs | backend/src/modules/billing/quota.service.ts:41-66 | The plan enforced is the live subscription's while it is active, on trial or past due, else the one of the organization's tier |
| BillingQuota.LimitsAgreeEndToEnd | backend/src/modules/billing/quota.service.ts:90-151 | In every reachable state, for a tenant in good standing and not on an aliased plan, client and server refuse one more property, employee, AI minute or byte exactly when it is too much for the plan |
| Calendar.CivilIsUnique | backend/src/modules/billing/billing.service.ts:64-69 | Every day has exactly one valid calendar date: writing and reading dates are inverse |
| Calendar.DayZero | backend/src/modules/billing/billing.service.ts:64-69 | Days are counted from 1 January 1970 |
| Calendar.MonthlyPeriod | backend/src/modules/billing/billing.service.ts:64-69 | A monthly period is exactly as many days as its starting month has by the Gregorian calendar, and keeps the time of day |
| Calendar.MonthlyLanding | backend/src/modules/billing/billing.service.ts:64-69 | The date a monthly period ends on, overflow past short months and December included |
| Calendar.YearlyPeriod | backend/src/modules/billing/billing.service.ts:64-69 | A yearly period has 366 days exactly when one of its days is a 29 February, else 365, and keeps the time of day |
| Calendar.SpansLeapDayByYear | backend/src/modules/billing/billing.service.ts:64-69 | One of its days is a 29 February exactly when the end of February inside it, of the starting year for a start in January or February and else of the next, is in a leap year |
| Calendar.YearlyLanding | backend/src/modules/billing/billing.service.ts:64-69 | The date a yearly period ends on: the same, 29 February rolling over to 1 March |
| ChatInvariants.EveryRunIsSound | backend/src/modules/chat/chat.service.ts:293-383 | Over every run the assignee is the log's last employee and a participant, closed implies a closing time, `last_message_at` is the last inserted message's time, and (conversation, user) is unique |
| ChatInvariants.StepKeeps | backend/src/modules/chat/chat.repository.ts:516-664 | Each call keeps that |
| ChatInvariants.OneAutomaticEntry | backend/src/modules/chat/chat.service.ts:992-1012 | A conversation's log holds at most one automatic entry however often its job is redelivered |
| ChatCursors.NoMessageWhileClosed | backend/src/modules/chat/chat.service.ts:1281-1312 | A step appends at most one message, into a conversation that is then open; one that was closed has been reopened by a visitor |
| ChatCursors.SenderHasRead | backend/src/modules/chat/chat.service.ts:794-871 | Right after a participant sends, the conversation is not unread for them |
| ChatCursors.ReaderHasRead | backend/src/modules/chat/chat.service.ts:914-932 | Right after a participant marks a message read, its conversation is not unread for them |
| ChatCursors.StaysReadUntilNextMessage | backend/src/modules/chat/chat.service.ts:149-155 | It stays read through any run that appends no message to it |
| ChatCursors.SenderHasReadExactly | backend/src/modules/chat/chat.repository.ts:582-664 | After any step that appends a user's message, it is read for its sender exactly when a participant sent it through `sendMessage` |
| ChatCursors.AuthorOfFirstMessageIsUnread | backend/src/modules/chat/chat.repository.ts:321-341 | The author of a first message written by `create` sees it as unread |
| ChatCursors.ReopenedWithClosingTime | backend/src/modules/chat/chat.service.ts:501-590 | A step reopens a closed conversation and keeps its closing time exactly when it is an assignment or a status update that goes through; over every step |
| ChatCursors.NoMessageIsLater | backend/src/modules/chat/chat.repository.ts:582-664 | In any run whose clock does not run back, no message of a conversation is later than its `last_message_at` |
| ChatRoundRobin.EveryRunIsCyclic | backend/src/modules/chat/chat.repository.ts:869-885 | With a fixed pool, a tenant's automatic picks go round the pool whatever else is interleaved |
| ChatRoundRobin.EveryWindowIsFair | backend/src/modules/chat/chat.repository.ts:849-885 | Of any m consecutive automatic assignments among k agents each agent gets floor(m/k) or ceil(m/k) |
| ChatUnread.UnreadConversationCountsForUsers | backend/src/modules/chat/chat.repository.ts:97-159 | The batched map has exactly the deduplicated non-empty ids as keys, and each value is the single-user count |
| ChatUnread.ScopedAgrees | backend/src/modules/chat/chat.repository.ts:777-803 | Selecting many users' rows and then one user's is selecting that user's rows |
| ChatUnread.CursorAgrees | backend/src/modules/chat/chat.repository.ts:805-829 | With unique rows, the by-user map's last row for a user is the row the single-user query sees |
| ChatUnread.ReachableTablesAreUnique | backend/src/modules/chat/chat.repository.ts:219-345 | Every state a run reaches has the unique rows the batched count relies on |
| ChatBadges.UnreadExactly | backend/src/modules/chat/chat.service.ts:149-155 | In any run whose clock does not run back, a conversation is unread for a user exactly when it has a message their cursor there has not reached, if there is a cursor |
| ChatBadges.NewMessageIsUnread | backend/src/modules/chat/chat.repository.ts:582-664 | A step that appends a message makes its conversation unread, exactly for those whose cursor stays earlier |
| ChatBadges.CountIsUnseen | backend/src/modules/chat/chat.repository.ts:777-829 | In such a run the count of the batched map is the number of the tenant's conversations with an unseen message: of the open ones with full access, else of those the user takes part in |
| ChatService.Store.SetLastRead | backend/src/modules/chat/chat.repository.ts:706-730 | The update loop moves exactly the cursors of that conversation and user |
| ChatService.Store.Create | backend/src/modules/chat/chat.service.ts:293-383 | In-place call keeps the invariants; earlier conversations and rows stay, the new rows are the creator's and the assignee's, an assignee must be an employee, and the new conversation is unread exactly when it starts with a message |
| ChatCalls.ReachesOwn | backend/src/modules/chat/chat.service.ts:501-520 | A call reaches exactly the tenant's own conversations that are not deleted |
| ChatService.Store.Update | backend/src/modules/chat/chat.service.ts:501-545 | In-place call keeps the invariants; the status asked for is set, asking again changes nothing, and a closing status shuts the conversation |
| ChatService.Store.Assign | backend/src/modules/chat/chat.service.ts:565-590 | In-place call keeps the invariants; exactly when it goes through, that the employee takes part, that no queued job assigns again, and that the rotation does not move |
| ChatService.Store.Close | backend/src/modules/chat/chat.service.ts:627-653 | In-place call keeps the invariants; members' messages are then refused, jobs skip it, and a visitor's message opens it again |
| ChatService.Store.PerformAutoAssign | backend/src/modules/chat/chat.service.ts:992-1012 | In-place job keeps the invariants; acts exactly on an open unassigned conversation of a tenant with agents, gives it to the agent whose turn it is, and does nothing when redelivered |
| ChatService.Store.SendMessage | backend/src/modules/chat/chat.service.ts:794-871 | In-place call keeps the invariants; writes one message exactly in an open conversation, moves no cursor but the sender's, and leaves it unread for a sender who does not take part |
| ChatService.Store.SendPublicMessage | backend/src/modules/chat/chat.service.ts:1269-1312 | In-place call keeps the invariants; the error exactly, and that a closed conversation is open afterwards even when nothing is written |
| ChatService.Store.MarkMessageRead | backend/src/modules/chat/chat.service.ts:914-932 | In-place call keeps the invariants; clears the reader's badge there and changes no other badge, message or conversation |
| ChatService.Store.StartPublic | backend/src/modules/chat/chat.service.ts:1117-1168 | A visitor's first message opens a conversation that awaits an agent and is unread for everyone; without content nothing happens |
| ChatService.Store.Serve | backend/src/modules/chat/chat.service.ts:293-1312 | Any sequence of requests and jobs takes the class through exactly the states of the run, invariants kept |
| ChatSanitize.OutputHasNoTag | backend/src/modules/chat/chat-sanitize.ts:6-13 | For every text, the output holds no '<', one or more other characters, '>' |
| ChatSanitize.OutputIsSubsequence | backend/src/modules/chat/chat-sanitize.ts:6-13 | The output is made of the input's characters in order |
| ChatSanitize.StrippingIsIdempotent | backend/src/modules/chat/chat-sanitize.ts:9 | Tag stripping changes exactly the texts that hold a tag, and twice is once |
| ChatSanitize.UnchangedExactly | backend/src/modules/chat/chat-sanitize.ts:6-13 | Exactly which messages pass the whole sanitiser unchanged |
| ChatSanitize.ScriptIsCut | backend/src/modules/chat/chat-sanitize.ts:8 | The first script element, from a whole-word `<script` in any case to its first closing tag, is cut out with all its content, and the pass goes on behind it |
| ChatSanitize.NoScriptIsKept | backend/src/modules/chat/chat-sanitize.ts:8 | Without a script element that pass changes nothing |
| ChatSanitize.OutputIsTrimmed | backend/src/modules/chat/chat-sanitize.ts:6-13 | The output has no white space of ECMA-262 at its ends, and nothing else was trimmed off |
| ChatSchemes.OutputHoldsScheme | backend/src/modules/chat/chat-sanitize.ts:10-12 | An output holds a stripped scheme exactly when the tagless text spells it over the positions left once the spellings of "javascript:", and then over those left the spellings of "data:text/html", are removed |
| ChatSchemes.SchemeIsLeft | backend/src/modules/chat/chat-sanitize.ts:10 | A concrete input whose output is the scheme |
| AuditCsv.ExportCsv | backend/src/modules/audit/audit.service.ts:113-158 | The file reads back as the header and exactly the original cells, null as empty, for all rows of arbitrary text |
| AuditCsv.ExportRoundTrip | backend/src/modules/audit/audit.service.ts:113-167 | For any rows of arbitrary text, joining the lines by CRLF and reading them by RFC 4180 is the identity on the header and the cells |
| AuditCsv.CellIsRead | backend/src/modules/audit/audit.service.ts:160-167 | A cell, quoted or not, reads back as its text |
| AuditCsv.CellIsBareExactly | backend/src/modules/audit/audit.service.ts:160-167 | A cell is written bare exactly when it has no quote, comma or line break |
| AuditCsv.ColumnsFollowHeaders | backend/src/modules/audit/audit.service.ts:124-155 | Each cell of a line stands under its own header name |
| InvoicePdf.BuildInvoicePdf | backend/src/modules/billing/invoice-pdf.ts:26-67 | The file begins with its header, and a reader of the format, with its own keywords, that starts at `startxref`, looks up `Root`, `Pages`, `Kids`, `Contents`, `Length` and `Font` as dictionary keys and executes the content stream, gets the eight lines of the invoice, each with its label and field and in its place on the page, for a file under ten to the tenth bytes |
| InvoicePdf.InvoiceIsRead | backend/src/modules/billing/invoice-pdf.ts:26-67 | For any lines, the document of the five objects is read as those lines in their places |
| InvoicePdf.XrefLocatesObjects | backend/src/modules/billing/invoice-pdf.ts:53-65 | Entry i of the table gives the byte offset where object i stands |
| InvoicePdf.EntryIsRead | backend/src/modules/billing/invoice-pdf.ts:62-64 | An entry has its 20 bytes exactly while the offset is below ten to the tenth, and then reads as that offset |
| InvoicePdf.StartXrefIsRead | backend/src/modules/billing/invoice-pdf.ts:59-65 | The end of the file gives the offset of the cross-reference table |
| InvoicePdf.DictIsFetched | backend/src/modules/billing/invoice-pdf.ts:43-58 | Through the table, each dictionary object parses as exactly the dictionary the writer meant |
| InvoicePdf.StreamIsRead | backend/src/modules/billing/invoice-pdf.ts:44-50 | `/Length` is the exact byte count of the stream: after that many bytes the stream and object keywords follow |
| InvoicePdf.ContentIsShown | backend/src/modules/billing/invoice-pdf.ts:38-42 | Executing the operators of the content stream shows the lines in order, line i alone on the line that starts at (50, 780 - 14 i), in the font F1 at 11, and ends well formed |
| InvoicePdf.ShownTextIdentifiesLine | backend/src/modules/billing/invoice-pdf.ts:27-42 | Without carriage returns, two lines are shown alike only if they are the same line |
| PdfStrings.EscapeIsOnePass | backend/src/modules/billing/invoice-pdf.ts:12-14 | The three sequential replacements equal a one-pass escape |
| PdfStrings.LiteralIsRead | backend/src/modules/billing/invoice-pdf.ts:12-14 | An escaped text in parentheses, followed by anything, reads back as its bytes with line ends normalised, for every text |
| PdfStrings.RoundTripIffNoCr | backend/src/modules/billing/invoice-pdf.ts:12-14 | That is the text itself exactly when it has no carriage return |
| PdfObjects.ParsePrinted | backend/src/modules/billing/invoice-pdf.ts:43-58 | Every dictionary, array, name, number and reference in the written form parses back as itself, and parsing stops right behind it |
| Utf8.Pad10RoundTrip | backend/src/modules/billing/invoice-pdf.ts:63 | Padding keeps the number, and yields ten digits exactly below ten to the tenth |
| TtlCache.HitIsFresh | backend/src/common/cache/redis-ttl-cache.service.ts:141-159 | Whatever the clock does, a hit is the newest value put under that key, within its TTL and not invalidated since |
| TtlCache.HitIffFresh | backend/src/common/cache/redis-ttl-cache.service.ts:141-173 | With a clock that does not run back, a lookup hits exactly when there is such a value |
| TtlCache.ReplayIsNamespaced | backend/src/common/cache/redis-ttl-cache.service.ts:137-139 | Every key in the store carries the namespace |
| TtlCache.ClearIsEmptyPrefix | backend/src/common/cache/redis-ttl-cache.service.ts:112-127 | So clearing equals deleting by the empty prefix |
| TtlCache.InvalidateRemovesExactly | backend/src/common/cache/redis-ttl-cache.service.ts:112-127 | Invalidating a prefix removes exactly the keys with it |
| TtlCache.InFlightValueOutlivesInvalidation | backend/src/common/cache/redis-ttl-cache.service.ts:97-110 | A value begun before an invalidation and put after it is served |
| TtlCache.HitIsStaleExactly | backend/src/common/cache/redis-ttl-cache.service.ts:97-127 | A hit was begun before an invalidation of its key exactly when one lies between the beginning and the put; none after the put is missed |
| TtlCache.Cache.Get | backend/src/common/cache/redis-ttl-cache.service.ts:141-159 | The in-place lookup, which drops an expired entry, agrees with the history |
| TtlCache.Cache.Set | backend/src/common/cache/redis-ttl-cache.service.ts:161-173 | The in-place put agrees with the history |
| TtlCache.Cache.Wrap | backend/src/common/cache/redis-ttl-cache.service.ts:97-110 | Returns a fresh stored value or produces and stores one |
| TtlCache.Cache.InvalidateKeys | backend/src/common/cache/redis-ttl-cache.service.ts:112-127 | The deleting loop agrees with the history |
| AnalyticsKey.KeyIsCanonical | backend/src/modules/analytics/analytics.service.ts:88-93 | Two keys are equal exactly when prefix, scope as a multiset of ids, range and extra agree |
| AnalyticsKey.OrderIsLexicographic | backend/src/modules/analytics/analytics.service.ts:90 | The ids are sorted in dictionary order: a proper prefix first, else by the first character that differs |
| AnalyticsKey.OrderedIsUnique | backend/src/modules/analytics/analytics.service.ts:90 | Sorting makes the order of the ids irrelevant |
| AnalyticsKey.HitIsForSameQuery | backend/src/modules/analytics/analytics.service.ts:319-330 | Through the cache, a hit was computed for the same tenant, endpoint, scope and range |
| Analytics.FunnelData | backend/src/modules/analytics/analytics.service.ts:161-178 | Whatever order the grouped counts arrive in, the six buckets are New, Contacted, Qualified, SiteVisitScheduled, Negotiation and ClosedWon, and each counts the inquiries in an explicit set of stages |
| Analytics.ComputeLeadKpis | backend/src/modules/analytics/analytics.service.ts:107-133 | The KPIs count the inquiries by stage, qualified meaning any of the six later stages |
| Analytics.FunnelNeverWidens | backend/src/modules/analytics/analytics.constants.ts:51-67 | Buckets never grow along the funnel |
| Analytics.FunnelMatchesKpis | backend/src/modules/analytics/analytics.constants.ts:69-77 | The qualified and won buckets equal the KPIs computed another way |
| Analytics.FunnelAccountsForAll | backend/src/modules/analytics/analytics.service.ts:161-178 | First bucket plus lost plus unknown stages is the total, so the first two are the total exactly when all stages are known |
| Analytics.EmployeePerformance | backend/src/modules/analytics/analytics.repository.ts:225-288 | The four merging loops give exactly one row per employee seen, with that employee's counts |
| Analytics.TableMatchesKpis | backend/src/modules/analytics/analytics.repository.ts:94-135 | Leads of the table plus unassigned inquiries are the KPI total, with none unassigned in an employee scope; visits add up likewise |
| Analytics.WonAndLostWithinTotal | backend/src/modules/analytics/analytics.repository.ts:240-262 | Won plus lost never exceeds total in a row |
| Analytics.RowCountsExactly | backend/src/modules/analytics/analytics.repository.ts:225-288 | An employee's row counts their inquiries in the query, those in ClosedWon, those in ClosedLost, and their visits |
| Analytics.InquiriesSeen | backend/src/modules/analytics/analytics.repository.ts:93-119 | A query sees exactly the tenant's undeleted inquiries in the range, ends included, and in the scope; an empty scope none but the reserved id |
| Analytics.VisitsSeen | backend/src/modules/analytics/analytics.repository.ts:121-135 | The same for site visits, which are never deleted |
| Analytics.OnlyOwnRowsCount | backend/src/modules/analytics/analytics.repository.ts:93-135 | Every aggregate depends on the tenant's own undeleted rows only |

## Left out

- InvoicePdf.BuildInvoicePdf: says nothing about a file of ten to the tenth bytes or more, whose entries are no longer 20 bytes (`EntryIsRead`); dates and amounts enter as formatted text, so the locale's money format is not modelled.
- AnalyticsKey.KeyIsCanonical: takes ids and prefixes without separators and timestamps of fixed width, as `toISOString` gives for years 0 to 9999.
- ChatRoundRobin.EveryWindowIsFair: takes the pool as fixed over the window; orders the log by insertion, so ties between equal assignment times are not modelled.
- Cryptography and foreign services: password hashing, token signing, signatures, the payment provider, captcha, object storage; their answers are parameters and hashes stand for their secrets.
- The database engine, transactions' isolation and races between two requests inside one service method; each call is one step, and a violated unique column makes a write fail.
- The Redis driver of the cache, reconnects and background expiry; the memory driver is modelled.
- The quota service's short-lived context cache: limits are compared on a context loaded for the call.
- Which roles may see or assign a conversation: the outcome of the check is the parameter `allowed`.
- Registration's conflict checks, email verification tokens, invitation mails, profile updates and `last_login_at`.
- The platform administrator's own status and tier changes, and the plan synchronisation they trigger.
- Storing the invoice PDF and writing its URL on the invoice, audit records, events and notifications.
- Chat activities, tags, soft deletion, inquiry conversion and automatic inquiry linking.
- Percentages rounded with `toFixed`, sorting and naming of the employee rows, revenue sums, monthly trends and SLA figures: each is computed from one query's rows, with nothing else in the program that has to agree with it.
- Plan codes and stages named like built-in object properties (`constructor`, `__proto__`), which plain objects used as tables treat specially.
- Local time zones; text is a sequence of Unicode scalar values, so lone surrogates are not modelled.
