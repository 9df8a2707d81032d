# Verified model of the WhatsApp business API's billing, session and document core

The program is a multi-tenant API: organisations sign in through an SSO, pay for
WhatsApp accounts by Razorpay mandates, some of them through an agency, and are
sent numbered tax invoices. Most of it reads and writes rows. What is modelled
here is the part that is a protocol or an exact algorithm:

- **Sessions** (`Redis`, `RefreshProtocol`, `Auth`): many callers holding one
  spent-once refresh token, serialised by a lock and a cached result with expiry
  times. The lock is not released on success; the model keeps that.
- **The paywall cache** (`OrgSettings`, `AccessCache`, `AccessPromises`, `AccessHistory`,
  `Access`): answers cached under the payer's version, with fills, writes, version bumps
  and moves between payers racing.
- **Agencies** (`Agency`): who pays for whom.
- **Money and documents** (`Money`, `DocumentNumber`, `InvoiceLedger`,
  `InvoiceService`): from the debit to lines and heads of tax, and gapless
  numbering under concurrent transactions.
- **Subscriptions** (`Subscription`, `Billing`, `AgencyBilling`): one
  organisation's subscription through any history of calls, webhooks and sweeps,
  and an agency's mandates that carry a quantity.
- **Mail retry** (`MailRetry`): replicas sweeping one table, with claims and leases.
- **Algorithms**: the GSTIN check digit (`Gst`), the amount in words
  (`AmountInWords`, `WordsText`), the PDF file and its string syntax (`Pdf`,
  `PdfText`), table pagination (`InvoiceTable`), the merged and paged thread
  (`Thread`), the fixed-window rate limit (`RateLimit`), the CSV writer (`Csv`).

`Options`, `Arithmetic`, `Sets` and `Decimal` serve the others.

## How it is modelled

Code whose steps interleave (an `await` between two reads, a transaction, another
replica) is an event machine: `Enabled` says when an event can happen, `Apply`
what it does, `RunFrom` where a list of events leads. Main results quantify over
every list of events. Code that runs a call at a time over rows it updates is a
class whose methods are proved against a step function; what the source promises
is proved about every run of that function. Loops of the source are loops here.

Clocks, and what the SSO, Razorpay, the mail provider and the database answer, are
inputs. Times are integer milliseconds, amounts integer paise, heights hundredths
of a point.

Some things the code or its comments promise need a condition. Each time the exact
one is proved for all inputs, with a history from the initial state in which it fails:

- A bump makes a new subscription visible exactly when it is the payer's
  (`AccessHistory.StaleUnlessPayerBumped`). Putting an attached client on a plan, or
  releasing it, bumps the client's own version, while its cached answers carry its
  agency's (`AgencyBilling.OwnBumpMovesKeyIff`).
- Attaching or detaching an organisation brings back an old answer exactly when a live
  one stands under the version it is moved to (`AccessHistory.MoveExposesIff`). On the
  way out that is its own version moved once, or twice if the release went through
  (`Agency.DetachReusesKeyIff`). `AccessHistory.AttachBringsBackIff` is a history in
  which the version brought back is not even the organisation's latest. Only the
  one-minute expiry helps (`AccessHistory.ExposedIsRecent`).
- An agency's quantity stays the number of its riders exactly through clean calls:
  subscribing an organisation that has an ended row fails after the mandate has grown
  (`AgencyBilling.SubscribeConservesIff`, `QuantityCanExceedRiders`); a cancellation the
  provider refuses leaves the client marked and still charged for
  (`ReleaseConservesIff`, `FailedReleaseStillCharges`); an organisation registering for
  itself over a released row rides again (`OwnRegistrationConservesIff`,
  `RidersCanExceedQuantity`). The provider then charges for exactly those riders, unless it
  would not have a smaller quantity (`ProviderChargesForRiders`, `StepAgreesIff`).
- A paid month holds exactly while every fresh registration comes with a month that
  covers it: registering over a finished row writes the new mandate's end, or none, over
  what was left (`Subscription.PaidAccessSurvivesIff`, `PaidAccessCanBeLost`).
- A confirmed change of tier leaves the tier that owns the plan charged exactly when the
  plan moves with the confirmation, or nothing settled the change before it
  (`Subscription.PromotionTierIff`, `TierCanBeLost`). What was pending outlives the
  subscription it was pending on (`FreshRegistrationConfirmed`,
  `PendingCanOutliveItsSubscription`).
- No invoice line is negative exactly when the earlier lines, rounded, do not already
  exceed the taxable value (`Money.NoLineIsNegativeIff`, `LastLineCanGoNegative`).

Timing bounds are exact too: ten seconds for the refresh lock
(`RefreshProtocol.SafeIffTimely`), ten minutes for the mail lease
(`MailRetry.SafeIffWithinLease`), one second for a late count
(`RateLimit.LimitsHoldIffPrompt`).

## Model

| member | source | states |
|---|---|---|
| RefreshProtocol.RefreshIsSafe | src/auth/auth.service.ts:117-144 | For any callers, failures and clock: if the gap from cache check to lock plus the exchange fit inside the lock's ten seconds, at most one exchange is in flight, a spent token is not presented again while its result is cached, and whoever returns tokens then returns the winner's pair. |
| RefreshProtocol.SafeIffTimely | src/redis/redis.service.ts:177-203 | That timing bound is exact: within it no run presents a spent token again while cached, outside it some run does. |
| RefreshProtocol.LateRunRespends | src/auth/auth.service.ts:120-135 | The run that does: a caller that misses the cache just before the first wins and asks for the lock when it expires. |
| RefreshProtocol.LoserIsPatient | src/auth/auth.service.ts:120-264 | A caller that finds the lock held gets a pair or goes on waiting: however anything interleaves it gives up no sooner than two seconds later, after at most twenty polls, and never on the other's account. |
| RefreshProtocol.OnlyFailureFrees | src/auth/auth.service.ts:127-144 | A failed exchange leaves the lock to whoever asks next; a successful one leaves it to run out. |
| Auth.WaitForRefresh | src/auth/auth.service.ts:254-264 | A loser polls at most twenty times; it returns the first pair any poll saw before the deadline, and gives up only after a poll at or past it with none seen. |
| Auth.AuthService.Refresh | src/auth/auth.service.ts:117-144 | Alone: a cached pair touches nothing; a held lock never ends the session; a success is readable for exactly its minute and keeps the lock; a failure leaves the token retryable at once. |
| Redis.RedisService.TakeRefreshLock | src/redis/redis.service.ts:177-186 | Taken exactly when no live lock is there, and then its taker's for ten seconds and nobody's from then on; no other key reads differently at any time. |
| Redis.RedisService.ReleaseRefreshLock | src/redis/redis.service.ts:188-190 | Nobody holds the lock at any later instant, whoever held it; no other key reads differently. |
| Redis.RedisService.SetRefreshResult | src/redis/redis.service.ts:192-203 | Whoever asks within the minute is given this pair, nobody is given any after it, and no other key reads differently. |
| Redis.RedisService.GetRefreshResult | src/redis/redis.service.ts:205-209 | The stored pair while it is live, and nothing otherwise. |
| Redis.RedisService.CountInWindow | src/redis/redis.service.ts:323-333 | Returns one more than the window's live counter, and sets the expiry on the first count only. |
| Redis.RedisService.SetSubscriptionAccess | src/redis/redis.service.ts:341-352 | The answer is read back until its minute is up and no answer at all after it; no other key reads differently. |
| Redis.RedisService.GetSubscriptionAccess | src/redis/redis.service.ts:354-358 | A live "1" allows, any other live value refuses, and nothing live is no answer. |
| Redis.SecondsUntilWindowEnds | src/redis/redis.service.ts:336-339 | Between 1 and the window's length, and waiting exactly that long lands in the very next window. |
| OrgSettings.PayerPaysForItself | src/organisation-settings/organisation-settings.service.ts:185-188 | With no chains, asking who pays for a payer changes nothing. |
| OrgSettings.ScopesPartition | src/organisation-settings/organisation-settings.service.ts:234-238 | Billing scopes partition organisations: each is in its own, and two scopes are equal or disjoint. |
| OrgSettings.BumpMovesKeyIff | src/organisation-settings/organisation-settings.service.ts:197-260 | A bump moves the cache version of exactly the organisations the bumped one pays for. |
| OrgSettings.OrganisationSettings.BumpPayerVersion | src/organisation-settings/organisation-settings.service.ts:247-260 | The row is created at one or moved on by one; nobody's payer changes and exactly the inheritors' versions do. |
| OrgSettings.BumpAllOneMore | src/billing/agency-billing.service.ts:284-288 | Bumping organisations one after another bumps each of them once. |
| AccessCache.ScopeInjective | src/billing/subscription-access.service.ts:58-60 | Two keys are the same text only for the same organisation, account and version. |
| AccessPromises.AnswersAreFresh | src/billing/subscription-access.service.ts:70-89 | In every reachable state, whatever was racing and whoever was attached or detached, every answer is the rule applied to rows read for that organisation and account, computed under sixty seconds before it was given; and those rows were read since the version held began, unless the answer was cached under another payer. |
| AccessPromises.BumpReachesEveryInheritor | src/billing/subscription-access.service.ts:150-160 | After any history in which nothing found under another payer is still about, a bump of the payer, then anything but a move of the organisation: whoever asks about it after the bump gets an answer by the rule, computed only from rows as they were at the bump or later. |
| AccessPromises.UnmovedIsOnlyUnder | src/organisation-settings/organisation-settings.service.ts:185-202 | That condition holds of itself in every history that never moves the organisation. |
| AccessPromises.QuietAnswerIsCurrent | src/billing/subscription-access.service.ts:75-89 | If nothing was written since, that answer is the rule applied to the table as it stands. |
| AccessHistory.StaleUnlessPayerBumped | src/billing/agency-billing.service.ts:135-138 | From an empty table an organisation is refused, gains a subscription, somebody is bumped, it asks again: it is answered from the table exactly when the one bumped is its payer, and otherwise with its old refusal. |
| AccessHistory.MoveExposesIff | src/agency/agency.service.ts:167-291 | After an attach or a detach that goes through, the organisation's next question is answered from before it exactly when a live answer stands under the version it moved to: the agency's, or its own moved once, or twice after a release. |
| AccessHistory.ExposedIsRecent | src/redis/redis.service.ts:341-358 | In any history what a move can bring back was computed under a minute before, from rows read for that organisation. |
| AccessHistory.AMinuteForgets | src/redis/redis.service.ts:341-358 | After any history, whoever asks a minute later is answered from the tables, never from what was cached. |
| AccessHistory.AttachBringsBackIff | src/agency/agency.service.ts:167-177 | From an empty table, an organisation refused, bumped and then attached to a paying agency is given its old refusal exactly when the agency's version is the one it was refused under. |
| Access.SubscriptionAccessService.HasAccess | src/billing/subscription-access.service.ts:70-116 | A live cached answer is given unchanged; otherwise the first of the four rows in order decides, and that decision is cached for a minute under the payer's version. |
| Access.SubscriptionAccessService.InvalidatePayer | src/billing/subscription-access.service.ts:158-160 | One write changes the cache key of every account of every organisation the payer answers for, and of no other. |
| Access.FirstOfFour | src/billing/subscription-access.service.ts:82-116 | Own account, own organisation, payer's account, payer's organisation: the first of these rows there is decides, and looking them up in order is the nested fallback. |
| Access.PaidMonthWins | src/billing/subscription-access.service.ts:36-47 | Granted exactly when not superseded and either in a granting status or inside the paid month. |
| Agency.OneLevelIffFresh | src/agency/agency.service.ts:61-292 | A call keeps the relation one level deep exactly when it is refused or the organisation it creates was not already an agency. |
| Agency.EveryRunIsOneLevel | src/agency/agency.service.ts:69-87 | Through every run of convert, attach, create and detach no organisation is both agency and client, and every client's payer is an agency. |
| Agency.ScopesStayDisjoint | src/agency/agency.service.ts:112-185 | So after any run from nothing, payers pay for themselves and scopes are equal or disjoint. |
| Agency.GoesAheadIff | src/agency/agency.service.ts:61-277 | Each of the four calls goes ahead exactly when what it asks for holds, said of the rows themselves; refused, it changes nothing and is told a reason that holds; a client made but not put on a plan is told of as that. |
| Agency.WritesOneRow | src/agency/agency.service.ts:90-291 | A call writes one organisation's row: the payer, the agency mark or the name it is about, and nothing of anybody else's. |
| Agency.RosterGrowsByOne | src/agency/agency.service.ts:143-165 | A new client takes one place and never more than the plan includes; attaching one already held is a rename and takes none. |
| Agency.RosterStaysWithin | src/agency/agency.service.ts:143-216 | However a client comes, attached or created, one call takes an agency within its plan to no more clients than the plan includes. |
| Agency.RosterNeverExceeds | src/agency/agency.service.ts:143-216 | So through any run of calls about any agencies, while those about this one carry its plan's number. |
| Agency.DetachUndoesAttach | src/agency/agency.service.ts:268-292 | Detaching restores every agency's roster and every organisation's payer. |
| Agency.NextIsMoves | src/agency/agency.service.ts:90-291 | In payers and versions, each call is a move or a bump, or both in the order of its writes. |
| Agency.AttachReusesKeyIff | src/agency/agency.service.ts:167-177 | An attach leaves the key the organisation was just using in use exactly when the agency's version equals its own. |
| Agency.DetachReusesKeyIff | src/agency/agency.service.ts:279-291 | A detach does exactly when the client's version, moved twice if the release went through and once if not, is the agency's. |
| Agency.AgencyService.Convert | src/agency/agency.service.ts:61-109 | Refused for a client and for an agency with clients; otherwise the row is converted; one level is kept. |
| Agency.AgencyService.AttachClient | src/agency/agency.service.ts:112-185 | Every refusal in order, the roster limit only for a newcomer, and otherwise the client's row; one level is kept. |
| Agency.AgencyService.CreateClient | src/agency/agency.service.ts:198-241 | Limit and SSO refusals change nothing, the limit by GoesAheadIff and RosterNeverExceeds; the new organisation becomes a client, its version moves once more if it could be put on a plan, and it is kept if it could not; one level is kept if it is new. |
| Agency.AgencyService.DetachClient | src/agency/agency.service.ts:268-292 | Only its own agency may; the client keeps its row and loses its payer, its version moving once, and once before that if the release went through; one level is kept. |
| Money.Round | src/billing/invoice.service.ts:392 | Within half of the exact quotient, halves upwards. |
| Money.DivideIsExact | src/billing/invoice.service.ts:511-522 | Taxable value and tax are non-negative and sum to the debit, the value is the nearest paisa to the exact one, and there is no tax, and no rate, without a positive rate. |
| Money.HeadsSumToTax | src/billing/gst.ts:177-205 | CGST, SGST and IGST sum to the tax; IGST alone, and only then inter-state, exactly between two states known and different; an odd paisa is SGST's. |
| Money.RowsStateTheTax | src/billing/invoice.pdf.ts:179-207 | The printed tax rows sum to the tax at the whole rate: none exactly without tax, one exactly between states, otherwise two at half the rate a paisa apart at most. |
| Money.HeadlessTaxIsOneRow | src/billing/invoice.pdf.ts:197-206 | A document stored without heads shows its tax whole, in one row. |
| Money.Drafts | src/billing/invoice.service.ts:297-370 | One line of one unit per client of a mandate, in order, weighed by the client's own price or 1; a single one for the payer without a mandate, and for nobody on a mandate with no clients. |
| Money.Apportion | src/billing/invoice.service.ts:382-408 | Lines add up to the taxable value exactly and every one but the last is within half a paisa of its weighted share. |
| Money.DraftsChargeByPrice | src/billing/invoice.service.ts:297-408 | Dividing by the drafts charges every client but the last the nearest paisa to its share of the taxable value by its own price, a client without one counting 1, all of one unit and in order; without clients it is one line for everything, naming the payer or nobody. |
| Money.UnitIsNearest | src/billing/invoice.service.ts:397-404 | The unit amount is the nearest paisa to the line's amount over its quantity. |
| Money.ApportionmentUnique | src/billing/invoice.service.ts:382-408 | Those two facts leave exactly one possible set of lines. |
| Money.LastLineBound | src/billing/invoice.service.ts:389-394 | The last of n lines is within (n-1)/2 paise of its exact share. |
| Money.NoLineIsNegativeIff | src/billing/invoice.service.ts:389-394 | For every debit no line but the last can be negative, and the last is not exactly when the earlier lines, each rounded by itself, sum to at most the taxable value. |
| Money.HeavyLastLineIsSafe | src/billing/invoice.service.ts:389-394 | A last weight worth half a paisa for every earlier line always meets that condition. |
| Money.UnweightedGoesLast | src/billing/invoice.service.ts:386 | With no weights at all the whole value is on the last line. |
| Money.LastLineCanGoNegative | src/billing/invoice.service.ts:389-394 | The failing case: six equal weights, a zero and three paise charge the last line minus three. |
| Money.EveryPaisaIsAccounted | src/billing/invoice.service.ts:227-230 | Lines plus the three heads of tax equal exactly what the bank moved, for every debit, rate and pair of states. |
| Money.ExtractsAreDisjoint | src/billing/invoice.service.ts:752-756 | No line is shown in two organisations' extracts. |
| Money.ExtractsAddUp | src/billing/invoice.service.ts:752-782 | The totals of distinct organisations' extracts, and the lines that are nobody's, sum to the whole document. |
| DocumentNumber.LabelReads | src/billing/invoice.number.ts:29-34 | Read as numbers, the label is the year of the April its month follows and the year after, up to the century. |
| DocumentNumber.SameBookIff | src/billing/invoice.number.ts:29-34 | Two months get one label exactly when, counted from year 0, they fall in the same twelve from an April, up to the century. |
| DocumentNumber.NumberInjective | src/billing/invoice.number.ts:51-59 | A printed number names one kind, series, year and sequence, before and past four digits. |
| DocumentNumber.NumberRecognised | src/billing/invoice.number.ts:93-95 | The route pattern accepts every number issued, for its own kind and no other. |
| DocumentNumber.RecognisedIsPrintedIff | src/billing/invoice.number.ts:93-95 | Anything the pattern accepts is a series, a year and a place, and is the number printed for them exactly if the place is not padded past four digits. |
| InvoiceLedger.BooksAreSound | src/billing/invoice.service.ts:198-288 | In every reachable state of racing issuers with aborts and losers: each invoice is numbered one past its year's book, no payment has two, invoice and receipt pair up and share year and sequence, and everyone answered holds its payment's one invoice. |
| InvoiceLedger.NumbersAreExactly | src/billing/invoice.service.ts:428-445 | A year's committed numbers are exactly 1 to the number of its invoices. |
| InvoiceLedger.NoReuse | src/billing/invoice.service.ts:420-445 | Within a year numbers rise strictly in commit order. |
| InvoiceLedger.PrintedNumbersDiffer | src/billing/invoice.service.ts:236-240 | No two invoices of any run ever print the same number. |
| InvoiceLedger.ClashIsDuplicate | src/billing/invoice.service.ts:277-286 | A unique-key clash happens exactly when the payment already has a committed invoice, never over a number. |
| InvoiceLedger.NoReceiptClash | src/billing/receipt.service.ts:77-98 | The receipt's insert never clashes. |
| InvoiceLedger.WaitsOnlyForItsOwnBook | src/billing/invoice.service.ts:428-445 | With only other years' and other payments' transactions about, or ones with no number yet, an issuer can always take its own next step. |
| InvoiceLedger.NoDeadlock | src/billing/invoice.service.ts:234-276 | While any transaction is open some step other than giving up can be taken: waits on counters and on duplicates cannot form a cycle. |
| InvoiceService.InvoiceService.NextSequence | src/billing/invoice.service.ts:428-445 | Claims the year's next free number and moves only that year's counter. |
| InvoiceService.InvoiceService.RecordReceipt | src/billing/receipt.service.ts:53-100 | One receipt, for the whole amount, under the receipt counter's own next number. |
| InvoiceService.InvoiceService.Record | src/billing/invoice.service.ts:199-288 | Existing document: nothing written. Rolled back: the number goes too. Committed: the year's next number, a receipt with the same one, and lines and tax that account for the debit, each client but the last charged the nearest paisa to its share by its own list price. |
| InvoiceService.LoneIssue | src/billing/invoice.service.ts:199-276 | An issuer's six steps from its look for a document to its commit, with nobody about, equal one update of the tables under the year's next number, and it keeps every ledger invariant. |
| MailRetry.SweepsAreSafe | src/mail/mail.service.ts:395-482 | Any replicas, crashes and failures on single rows included, each sweep within its lease: no row has two senders, every holder knows the attempts on record, and while no attempt was lost a row has at most four and the fourth settles it. |
| MailRetry.SafeIffWithinLease | src/mail/mail.service.ts:79-84 | Every run is safe exactly when no sweep outlasts the lease. |
| MailRetry.LateSweepSendsTwice | src/mail/mail.service.ts:432-440 | The run that is not: a second sweep starts as the first one's lease ends, and both are sending one row. |
| MailRetry.SettledStaysSettled | src/mail/mail.service.ts:485-504 | Once settled, a row is never changed or sent again by any later run. |
| MailRetry.EveryAttemptCounts | src/mail/mail.service.ts:450-482 | Each attempt adds one; the row stays open exactly after a refusal before the fourth, and then not for half an hour; otherwise it is settled as what its outcome was, with no next time and no payload left. |
| MailRetry.NextRetryAt | src/mail/mail.service.ts:72-89 | There is a next time exactly after attempts one to three: five minutes, half an hour and two hours on. |
| MailRetry.LeasedIsUnclaimable | src/mail/mail.service.ts:432-439 | A row one sweep holds is out of every live sweep's reach. |
| MailRetry.MailService.Claim | src/mail/mail.service.ts:432-440 | Claims and leases exactly a row still due by the sweep's own clock. |
| MailRetry.MailService.RetryRow | src/mail/mail.service.ts:422-482 | A lost claim changes nothing; a won one leaves what its outcome and count say; one broken off leaves the row as it was or leased; and the answer is what happened. |
| MailRetry.MailService.RetryFailed | src/mail/mail.service.ts:395-419 | Every row handed over is retried once whatever breaks on another, no other is touched, and the tallies count what happened. |
| MailRetry.SweepClearsItsBatch | src/mail/mail.service.ts:401-417 | With the query's limit and order: after a sweep, what is still due is a row whose claim itself failed, or one beyond the limit that was due no earlier than any taken. |
| Subscription.EndIsTheLatest | src/billing/billing.service.ts:899-943 | Over any webhooks, repeats, sweeps and confirmations of the held mandate, the paid month ends as the latest of its initial end and every end reported. |
| Subscription.OrderDoesNotMatter | src/billing/billing.service.ts:894-897 | The same deliveries in any order, at any times and with any repeats leave the same paid month, when one event id always carries one content. |
| Subscription.ReplayChangesNothing | src/billing/billing.service.ts:1406-1434 | A delivery seen once changes nothing when repeated, after any history and whatever it carries. |
| Subscription.PaidMonthNeverShrinks | src/billing/billing.service.ts:914-917 | Through any history in which no fresh registration starts on an earlier end, the paid month never moves backwards. |
| Subscription.StepKeepsEndIff | src/billing/billing.service.ts:621-653 | A call moves the paid month backwards exactly when it is a fresh registration on an earlier end, or on none. |
| Subscription.RegisterIff | src/billing/billing.service.ts:546-777 | Where nothing can be charged on any more the new mandate is what is held, by its own status and period; over an ending row it waits beside what is held, for the end of the paid month if that is to come; paid for by an agency, or still running, nothing changes. |
| Subscription.ChangeIff | src/billing/billing.service.ts:1101-1288 | Asked of an authorised, running row on a mandate of its own and another tier; nothing held changes, a tier known to be dearer leaves a new mandate pending, any other only the tier, each for the end of the month; otherwise nothing changes at all. |
| Subscription.CancelIff | src/billing/billing.service.ts:1337-1390 | Goes ahead exactly on a running mandate of its own; the row then has the status answered, an instant is granted by that status or by the month still held, registering afresh is open exactly if it is an end, nothing waits for authorisation, and what was held is otherwise as it was. |
| Subscription.CancelledOnce | src/billing/billing.service.ts:1117-1365 | Once cancelled with some of the paid month left, neither a second cancellation nor a change of tier does anything. |
| Subscription.WrittenIff | src/billing/billing.service.ts:1406-1878 | Exactly which reports are written: a first delivery of a subscription event about the mandate held, a sweep's answer about a row not ended whose month has run out, a verified confirmation of the mandate held or pending; any other changes no row, but for the promotion a verified payment makes. |
| Subscription.ReportIsBelieved | src/billing/billing.service.ts:899-943 | What is written leaves its status, its start where it has one, the first moment seen cancelled, and the authorisation page only while unauthorised; only confirming the pending mandate unsays that the row is ending. |
| Subscription.FreshGrantsIff | src/billing/billing.service.ts:621-653 | Access after a fresh registration is the new mandate's alone: by its status, or by an end of its own still to come. |
| Subscription.PaidAccessSurvivesIff | src/billing/subscription-access.service.ts:36-47 | A paid instant stays paid for at every point of a history of calls, webhooks and sweeps exactly when every fresh registration in it has a month of its own that covers the instant. |
| Subscription.PaidAccessSurvives | src/billing/subscription-access.service.ts:36-47 | At the end of such a history the paywall grants that instant. |
| Subscription.PaidAccessCanBeLost | src/billing/billing.service.ts:621-653 | The failing history: paid to the tenth second, cancelled, registered again with no end yet, refused at the seventh. |
| Subscription.CancelKeepsThePaidMonth | src/billing/billing.service.ts:1337-1390 | Cancelling keeps the paid month and its access to the end, marks the end of cycle exactly while there is some left, and drops the unauthorised mandate. |
| Subscription.NothingChangesWhileWaiting | src/billing/billing.service.ts:954-963 | Reports of an unmoved plan change neither what is held nor what is pending. |
| Subscription.ConfirmInstallsWhatWasChosen | src/billing/billing.service.ts:686-889 | From an upgrade or resubscription, through reports of an unmoved plan, the mandate, plan and tier held stay put; its verified confirmation installs the new mandate, records whatever plan is charged and clears all four pending columns; the tier is the owner of that plan exactly when the plan moved or is the chosen tier's, and the chosen one if nobody owns it. |
| Subscription.DowngradeSettlesAtRenewal | src/billing/billing.service.ts:1251-1288 | A cheaper tier changes nothing held until the plan is reported moved, then settles the row on it; an upgrade left pending is dropped. |
| Subscription.FreshRegistrationConfirmed | src/billing/billing.service.ts:546-671 | A registration and its confirmation hold exactly what was bought; anything is pending afterwards exactly when it was before. |
| Subscription.PendingCanOutliveItsSubscription | src/billing/billing.service.ts:621-653 | The failing history: an upgrade left unauthorised, the subscription ended, another registered; the upgrade is still pending on it. |
| Subscription.PromotionTierIff | src/billing/billing.service.ts:854-989 | Over any reports in between, moved or not, the confirmation leaves the tier that owns the plan charged exactly when the plan moves with it, or that tier was chosen and no report settled the change first. |
| Subscription.TierCanBeLost | src/billing/billing.service.ts:854-989 | The failing history: upgrade to a plan, the plan reported on the mandate still held, confirmation; charged on it with no tier. |
| Subscription.TierMovesOnlyWithMoney | src/billing/billing.service.ts:1226-1229 | Plan and tier move only by a fresh registration, an authorised pending change, or a plan Razorpay reports moved. |
| Subscription.ProrateBounds | src/billing/billing.service.ts:1298-1310 | Between nothing and the month's difference, less than a paisa under the exact share, and all of it at the cycle's start. |
| Subscription.NothingToProrate | src/billing/billing.service.ts:1303-1307 | No difference, no cycle or a cycle already over costs nothing. |
| Subscription.ToStatus | src/billing/billing.service.ts:1831-1833 | Each of the eight statuses Razorpay has reads as the one of that name, every other text as freshly created, and none as superseded. |
| Billing.BillingService.Register | src/billing/billing.service.ts:546-671 | Goes ahead exactly for a self-paying organisation with no live subscription or one set to end, as RegisterIff says of the result; each refusal is given exactly for its reason and changes nothing. |
| Billing.BillingService.StartResubscribe | src/billing/billing.service.ts:686-777 | Only the pending columns move, to start where the paid month ends if any is left. |
| Billing.BillingService.Confirm | src/billing/billing.service.ts:792-837 | Acts exactly on a verified payment for the held or pending mandate; a failed fetch keeps the promotion and nothing else; each refusal is for its reason. |
| Billing.BillingService.PromoteUpgrade | src/billing/billing.service.ts:854-889 | The pending mandate and its tier are the held ones, nothing is pending or ending, and the plan, status and period are as they were. |
| Billing.BillingService.ApplyRemote | src/billing/billing.service.ts:899-943 | Razorpay's version over the row, the end never moving back. |
| Billing.BillingService.ChangePlan | src/billing/billing.service.ts:1101-1288 | Goes ahead exactly past every refusal, each given for its reason; the result is ChangeIff's. |
| Billing.BillingService.Cancel | src/billing/billing.service.ts:1337-1390 | Goes ahead exactly for a live subscription not already ending, each refusal given exactly for its reason; the result is CancelIff's, Razorpay's answered status included. |
| Billing.BillingService.HandleWebhook | src/billing/billing.service.ts:1406-1508 | A repeated event id changes nothing at all; a first one is recorded and applied only to the mandate it names. |
| Billing.BillingService.Reconcile | src/billing/billing.service.ts:1844-1878 | Re-reads exactly a live subscription whose paid month has run out. |
| AgencyBilling.EveryRunConserves | src/billing/agency-billing.service.ts:92-208 | Through any run of clean subscriptions, releases, reports and registrations of clients for themselves, swaps of unauthorised mandates included, each mandate's quantity is the number of its clients not marked to end. |
| AgencyBilling.SubscribeConservesIff | src/billing/agency-billing.service.ts:105-133 | A subscription that goes ahead keeps that law exactly when the organisation has no row and a restarted mandate has nobody left (or the two errors cancel). |
| AgencyBilling.QuantityCanExceedRiders | src/billing/agency-billing.service.ts:105-133 | The failing history: an ended client put on a second plan; that mandate goes to two with one client riding it. |
| AgencyBilling.ReleaseConservesIff | src/billing/agency-billing.service.ts:162-208 | A release keeps the law exactly unless it is the last rider's and the provider will not cancel. |
| AgencyBilling.FailedReleaseStillCharges | src/billing/agency-billing.service.ts:174-191 | The failing history: one client taken on and released, the provider refusing; one is charged for and nobody rides. |
| AgencyBilling.RefusedReductionIsIgnored | src/billing/agency-billing.service.ts:192-203 | A smaller quantity the provider refuses is recorded here exactly while others still ride, and never there. |
| AgencyBilling.OwnRegistrationConservesIff | src/billing/billing.service.ts:621-653 | An organisation buying for itself keeps the law exactly when no agency left its row marked to end. |
| AgencyBilling.RidersCanExceedQuantity | src/billing/billing.service.ts:621-653 | The failing history: released, ended, registered for itself; one rider on a quantity of nothing. |
| AgencyBilling.SubscribeIff | src/billing/agency-billing.service.ts:92-153 | Goes ahead exactly on offer, for an organisation with nothing that can be charged, on a mandate that is not ending and either is authorised and grows with the provider's agreement or is made by it; that mandate alone moves, by one, and a new client's row is its terms; otherwise nothing changes. |
| AgencyBilling.ReleaseIff | src/billing/agency-billing.service.ts:162-208 | Only the one paying for it may release a client; it is marked and otherwise as it was, and only the quantity of the mandate it rode moves, which ends with its last rider if the provider cancels it. |
| AgencyBilling.RegisterItselfIff | src/billing/billing.service.ts:546-671 | Goes ahead exactly for an organisation nobody pays for with nothing that can be charged; its row is the new mandate's terms, with what an agency left on it. |
| AgencyBilling.GrowsAtOnceShrinksAtTheEnd | src/billing/agency-billing.service.ts:181-203 | What the provider is told is only ever added to: one more is charged for at once, one fewer or nobody at the end of the cycle. |
| AgencyBilling.StepAgreesIff | src/billing/agency-billing.service.ts:192-203 | A call leaves the provider charging each mandate for the quantity recorded exactly unless it would not have a smaller one. |
| AgencyBilling.ProviderChargesForRiders | src/billing/agency-billing.service.ts:92-208 | Through any run of clean calls in which no reduction is refused and every mandate made has a new name, what the provider has been told charges each mandate for exactly its clients not marked to end. |
| AgencyBilling.ReportMovesExactlyTheMandate | src/billing/agency-billing.service.ts:217-282 | After a report the mandate's group and every client riding it, released or not, have the status reported and the period reported, each end their own where none is; the rest of them, and everything off the mandate, is as it was. |
| AgencyBilling.OwnBumpMovesKeyIff | src/billing/agency-billing.service.ts:135-207 | Taking a client on or releasing it moves its cache key exactly if it is its own payer. |
| AgencyBilling.ReportMovesEveryKey | src/billing/agency-billing.service.ts:283-288 | A report moves the cache key of every client on the mandate, whether the agency still pays for it or it does. |
| AgencyBilling.CancelledWithTheLast | src/billing/agency-billing.service.ts:181-205 | While the provider agrees the clamp at zero never acts, and the mandate is cancelled exactly with its last rider; otherwise its quantity drops by one. |
| AgencyBilling.ReleaseIsIdempotent | src/billing/agency-billing.service.ts:174 | Releasing twice is releasing once. |
| AgencyBilling.ReleaseKeepsThePaidMonth | src/billing/agency-billing.service.ts:155-179 | No client's status, paid month or mandate is touched by a release. |
| AgencyBilling.AgencyBillingService.SubscribeClient | src/billing/agency-billing.service.ts:92-153 | Every refusal leaves things alone, except the failing row insert, which leaves the mandate grown; otherwise the client's row is made and its version moves; clean calls conserve. |
| AgencyBilling.AgencyBillingService.GroupFor | src/billing/agency-billing.service.ts:369-463 | Refuses an ending or dead mandate, an unwilling provider and one that makes no new mandate, each time unchanged; otherwise grows it by one, swaps it or starts it, telling the provider the same number. |
| AgencyBilling.AgencyBillingService.ReplaceUnauthorised | src/billing/agency-billing.service.ts:475-523 | The larger mandate is made before the old one is cancelled, for one more client; if it is not made nothing changes. |
| AgencyBilling.AgencyBillingService.ReleaseClient | src/billing/agency-billing.service.ts:162-208 | Only the payer may; the client is marked, the mandate shrinks or is cancelled and the client's version moves; a refused cancellation stops after the mark, a refused reduction is ignored. |
| AgencyBilling.AgencyBillingService.ApplyToGroup | src/billing/agency-billing.service.ts:217-300 | Moves the group and all its clients together, as ReportMovesExactlyTheMandate says, then each of their versions and the agency's, and conserves. |
| Gst.GstinCheckDigit | src/billing/gst.ts:140-149 | Nothing for a character outside the alphabet, otherwise the one character that completes the weighted sum to a multiple of 36. |
| Gst.OnlyZerosWeighNothing | src/billing/gst.ts:140-149 | The weighted sum is nothing only for zeros, which one more zero completes. |
| Gst.StateCodeIff | src/billing/gst.ts:27-70 | The codes are exactly 01 to 38 and 97, spelled with two digits. |
| Gst.SubstitutionChangesDigit | src/billing/gst.ts:140-149 | Any single changed character changes the check digit. |
| Gst.SwapKeepsDigitIff | src/billing/gst.ts:140-149 | Swapping neighbours keeps the check digit exactly when they are equal or a 0 and a Z. |
| Gst.OneCharacterCompletes | src/billing/gst.ts:106-149 | Whatever state, PAN and entity the first characters name, exactly one last character makes an accepted number of them. |
| Gst.AcceptedNumbersAreFarApart | src/billing/gst.ts:113-131 | Two different accepted numbers are never one mistaken character or one neighbouring swap apart. |
| WordsText.WordingReadsBack | src/billing/document.pdf.ts:518-547 | A reader recovers the exact paise from the printed wording of every amount, crores of crores included. |
| WordsText.WordingInjective | src/billing/document.pdf.ts:540-547 | No two amounts are worded alike. |
| AmountInWords.ReadAmountTokens | src/billing/document.pdf.ts:518-547 | The list of words of an amount, read with Indian units, is that amount. |
| WordsText.LexText | src/billing/document.pdf.ts:468-501 | No two vocabulary words look alike, and none is blank or has a space. |
| WordsText.UnderHundred | src/billing/document.pdf.ts:503-508 | The text is the number's words, single-spaced, and empty only for zero. |
| WordsText.UnderThousand | src/billing/document.pdf.ts:510-515 | The same, with hundreds. |
| WordsText.InWords | src/billing/document.pdf.ts:518-531 | The same for every number, recursing on crores, with Zero spelled. |
| WordsText.RupeesInWords | src/billing/document.pdf.ts:540-547 | The full line; it reads back as the amount. |
| Pdf.ReferencesResolve | src/billing/document.pdf.ts:352-378 | Every page's references name its own stream and the two fonts, and each declared length is its stream's (section 7.3.8.2 of ISO 32000-1). |
| Pdf.KidsListPages | src/billing/document.pdf.ts:362-365 | Read back, the page tree's array is exactly the pages, each once and in order. |
| Pdf.PagesNameTheTree | src/billing/document.pdf.ts:360-374 | The catalog and every page name the page tree. |
| Pdf.ObjectBeginsWithItsNumber | src/billing/document.pdf.ts:383-386 | An object begins with the number it is referred to by. |
| Pdf.ObjectStandsAtOffset | src/billing/document.pdf.ts:380-386 | Every object stands at the byte recorded for it. |
| Pdf.EntryIsTwentyIff | src/billing/document.pdf.ts:388-394 | An entry is the twenty bytes section 7.5.4 of ISO 32000-1 wants exactly while its offset has at most ten digits. |
| Pdf.TableLeadsToObjects | src/billing/document.pdf.ts:380-394 | Reading the k-th entry's ten digits leads to object k, for any file below ten billion bytes. |
| Pdf.StartxrefLeadsToTable | src/billing/document.pdf.ts:388-401 | The file ends with the position at which the table stands. |
| Pdf.TrailerNamesTheRoot | src/billing/document.pdf.ts:396-399 | The trailer names the catalog and counts one more than the objects. |
| Pdf.EverySheetIsFound | src/billing/document.pdf.ts:348-402 | Any sheet's content is found, with its length, by looking its number up in the table. |
| Pdf.Assemble | src/billing/document.pdf.ts:348-402 | The loops that grow body, offsets and table write that file. |
| PdfText.ToWinAnsi | src/billing/document.pdf.ts:271-284 | Only characters the fonts carry come out, and text that is already such is left alone. |
| PdfText.SpelledOut | src/billing/document.pdf.ts:245-257 | Curled quotes come out straight, dashes and bullets as hyphens, the ellipsis as dots, the rupee by name, and control characters not at all. |
| PdfText.SpelledAnywhere | src/billing/document.pdf.ts:271-284 | A character is spelled the same wherever it stands in a text. |
| PdfText.ThreeReplacementsAreOnePass | src/billing/document.pdf.ts:287-292 | The three replacements in that order never escape an escape. |
| PdfText.LiteralReadsBack | src/billing/document.pdf.ts:68-87 | A string reader gets back exactly the text and stops exactly at its closing parenthesis. |
| InvoiceTable.Table | src/billing/invoice.pdf.ts:545-607 | Every line printed once, in order, with its caption, a separator before the next and under column headings on its own sheet, then the period if there is one and the closing rule; each mark ten points or more below the one before or on a later sheet; clear of the footer exactly when the table's start leaves room; and the room asked for is left. |
| InvoiceTable.ListingIsComplete | src/billing/invoice.pdf.ts:545-607 | What is listed is exactly every row, every caption there is and a separator before each next row, each once and in its place. |
| InvoiceTable.NothingOverprints | src/billing/invoice.pdf.ts:545-607 | Of any two things drawn the later is at least ten points lower or on a later sheet. |
| InvoiceTable.RowStandsUnderHeadings | src/billing/invoice.pdf.ts:455-475 | Wherever a row ends up, column headings were drawn before it on its own sheet. |
| InvoiceTable.PlaceRow | src/billing/invoice.pdf.ts:560-584 | A row and its caption go on a sheet with room above the footer for both. |
| InvoiceTable.TableHead | src/billing/invoice.pdf.ts:462-475 | Headings, then their rule, then the first baseline. |
| InvoiceTable.Continuation | src/billing/invoice.pdf.ts:274-294 | A new sheet under a slim head, starting where the body may. |
| InvoiceTable.Totals | src/billing/invoice.pdf.ts:613-682 | The taxable value and each tax on a row of its own, a rule and the total, descending, then the two notes where there is tax; nothing else and nothing twice, all inside the panel's height, and the words start twenty below it. |
| InvoiceTable.RenderBody | src/billing/invoice.pdf.ts:394-420 | For any lines, captions or not: all printed in order under headings of their sheets, nothing below the footer's rule exactly for party blocks of up to 38 lines, then exactly the totals and the words, which end where the reserved room does. |
| Thread.PageIsNewest | src/inbox/inbox.service.ts:173-214 | A page merged from the newest `limit` of each table is a newest `limit` of both together, however the database breaks ties. |
| Thread.ViewIsNewestOldestFirst | src/inbox/inbox.service.ts:173-229 | The caller gets a newest `limit` of both tables older than the cursor, each once, the oldest of them first. |
| Thread.CursorIffFull | src/inbox/inbox.service.ts:210-229 | There is a cursor exactly when as many messages are shown as were asked for, and it is the time of the first one shown. |
| Thread.NeverRepeats | src/inbox/inbox.service.ts:154-161 | Following cursors never shows a message twice, even as more arrive. |
| Thread.FollowingEnds | src/inbox/inbox.service.ts:210-213 | The full pages account for that many different messages, so following them ends. |
| Thread.MissedIffTieCut | src/inbox/inbox.service.ts:154-229 | A message there from the start is missed exactly when a tie in timestamp cut it off at a page boundary. |
| Thread.Limit | src/inbox/inbox.service.ts:173 | What is asked for, brought within 1 and 100, and 50 when nothing is. |
| RateLimit.WindowLimit | src/messaging/send-rate.guard.ts:45-86 | Over any run at most the plan's number are admitted per window. |
| RateLimit.AnyMinuteLimit | src/redis/redis.service.ts:311-333 | And at most twice that in any sixty seconds. |
| RateLimit.LimitsHoldIffPrompt | src/redis/redis.service.ts:311-333 | Each of the two limits holds of every run exactly when no increment lands more than a second after its window was chosen. |
| RateLimit.LateRunAdmitsTooMany | src/redis/redis.service.ts:323-333 | The run that breaks both with a later one: at two a minute, four in a window and five in sixty seconds. |
| RateLimit.RefusedOnlyWhenFull | src/messaging/send-rate.guard.ts:70 | A refusal means more than the plan's number were counted in that window. |
| RateLimit.CounterIsExact | src/redis/redis.service.ts:323-333 | Inside its window the counter always reads how many were counted in it: its expiry never resets it. |
| RateLimit.SendRateGuard.CanActivate | src/messaging/send-rate.guard.ts:45-86 | Counts only an API-key send with a limit and a counter to count with; admits exactly within the plan; the wait it advises reaches the next window. |
| Csv.RoundTripIff | src/analytics/analytics.service.ts:683-690 | Reading the output gives back the table, whatever its fields hold, exactly when every row has a field (section 2 of RFC 4180, with LF line ends). |
| Csv.ReadsBackAs | src/analytics/analytics.service.ts:683-690 | What any table reads back as. |

## Left out

- RefreshProtocol.RefreshIsSafe: one token; different tokens use different keys. An exchange the SSO performed but reported as failed is not distinguished from one it refused.
- RefreshProtocol: a caller that crashes between presenting the token and storing the result breaks the timing bound, so it is outside the hypothesis.
- Redis: keys are a datatype, not prefixed strings; the connection never drops, except for the rate counter being unreachable.
- AccessPromises.BumpReachesEveryInheritor: a bump the database refuses is logged and lost by the code; here every bump lands. Several organisation-level rows ordered by age are one, as the unique index has it.
- AccessCache: identifiers contain no colon and are not empty.
- InvoiceLedger: reads and writes outside the two counters and the unique keys; delivery by mail; the configured series and time zone, which are taken as given.
- Money: quantities other than what the drafts set, the wording of lines and the summary, and currency conversion.
- MailRetry.SweepsAreSafe: the first send before its row is logged; a sweep here takes due rows in any order and number. A crash, or a failure after a claim, may leave an attempt unrecorded, so the limit of four is for runs without one.
- Subscription: one organisation's row; provisioning, overage add-ons, payment rows, emails and the refusals made before anything is read (no configuration, unknown plan). A superseded row is only ever read.
- Subscription: Razorpay's own objects, so a pending mandate replaced without being cancelled is not seen.
- AgencyBilling: customers, payments and notes; a replaced mandate the provider would not cancel; an organisation's change of plan or second mandate while its own subscription lives, which Subscription has; ids of mandates are whatever the provider gives.
- AgencyBilling.AgencyBillingService.ApplyToGroup: has no guard on the end of the period, as the code has none, so nothing is claimed about it moving forwards.
- InvoiceTable: horizontal positions, truncation, colours, the masthead, party and facts blocks beyond their height, and the footer itself.
- Pdf: content operators other than string syntax; the file is characters, one byte each.
- Thread: the conversation lookup, contacts, history limits and an unreadable cursor, which is refused.
- RateLimit.WindowLimit: the plan's number is fixed for a run.
- Controllers, data transfer shapes, HTTP calls, signatures, encryption, search, templates, contacts, notifications and admin listings: wiring and queries.
