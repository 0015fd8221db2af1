# Agentic payment gateway: a verified model of the money path

The gateway lets an agent spend under a stored *mandate*. A checkout passes a prompt firewall, a protocol parser and a
policy engine before an order goes to Razorpay, with at most one retry. Razorpay reports payments back through a signed
webhook, which is claimed once and then applied to the mandate. Four tables carry the state: mandates, the agent
denylist, idempotency keys and a hash-chained audit log.

The project models that path and proves what it keeps over whole histories, with many callers at once.

| file | what it holds |
|---|---|
| `Text.dfy`, `JsonText.dfy`, `JsonTree.dfy`, `Models.dfy` | strings and their order, `json.dumps` with a reader for it, JSON values, the records |
| `Audit.dfy`, `AuditSchedule.dfy`, `Timestamps.dfy`, `AuditClock.dfy` | the audit log, its interleavings, the timestamps it sorts by, and a clock that is read before them |
| `Vault.dfy`, `Policy.dfy` | mandates, revocation and denial; the guardrails |
| `Firewall.dfy`, `ProtocolParser.dfy` | the envelope's walk, sanitiser and normaliser |
| `Executor.dfy`, `Checkout.dfy`, `CheckoutHistory.dfy` | one money action, and every history of them |
| `Idempotency.dfy`, `WebhookApply.dfy`, `WebhookHistory.dfy` | one webhook, and every history of them |

Code that changes state in the original is a class with methods here, and each method's contract ties the new state to
the old one. Interleavings are sequences of events: each event is the part of one call between two database accesses,
and every theorem about histories holds for all sequences.

SHA-256 and the webhook's HMAC are functions of which nothing is assumed. A theorem that would need SHA-256 to be free
of collisions ends in "or here are two texts with one digest, or a text whose digest is the genesis hash" instead.
Library calls that the gateway makes on JSON values (`str.lower`, `str`, `int`, `json.dumps` of a nested value,
`datetime.fromisoformat`, pydantic's coercions) are arbitrary functions, collected in `JsonTree.Python`.

## Main results

- The canonical form of an audit record reads back, so two different records never hash the same text. Two tables that
  verify and end in the same hash hold the same rows (`HeadFixesTable`).
- `verify_chain` holds after a run of concurrent appends exactly if no commit fell between another worker's read and its
  commit and every committed key was the largest so far. A table that does not verify, whoever broke it, stays so under all
  later calls of the logger (`VerifiedIffSerial`, `BrokenTableStaysBroken`). ISO timestamps sort as instants (`IsoOrder`); with a
  clock that moves forward the log verifies exactly if no insert falls between a read and its commit and rows are
  inserted in the order of their times (`VerifiedIffOrderly`), which the clock alone does not bring about
  (`LateCommitBreaks`) and calls that are alone from their time to their commit do (`ClockedRunVerifies`).
- Over every history of interleaved checkouts, a run has returned exactly if one row, and only one, is its own, and that
  row and its result account for its attempts and orders (`EveryRunIsAccounted`, `RetriesExactly`). Attempts and rows
  reconcile (`Reconciliation`); every order ever sent went through validation, policy and a fresh read, in that order
  (`GateSoundness`), and stays within what was read (`TotalWithinBounds`); an envelope that passes tells nothing to the
  rest of the run (`EnvelopeNonInterference`).
- A webhook event is claimed, stored and recorded at most once over any interleaving of deliveries, locks and crashes
  (`AtMostOnce`). Webhooks keep spend authority out of their reach exactly if no delivery stores over a row whose
  authority changed after it read it (`AuthorityExactly`); a client that stores in between loses its update
  (`UpdateIsLost`).
- A mandate is usable after a sequence of vault calls exactly if it was stored, never revoked since, its agent never
  denied and its latest version has not expired (`UsableExactly`).

## Where the code and its documentation differ

- The log is meant to be an append-only chain (`src/services/audit.py:1-5`), but a call takes its time before it reads the
  last hash (`src/services/audit.py:82-83`). A worker that takes the time first and commits last puts its row in front of
  the row it names, and `verify_chain` is False on a log that nobody tampered with, with no commit between any read and
  its commit: `AuditClock.LateCommitBreaks`. The exact condition is `VerifiedIffOrderly`.
- `mark` promises that lock races are never raised (`src/services/idempotency.py:64`). Once the table exists it raises
  exactly if a round fails, or five rounds go by, before one finds the key or inserts it (`IdempotencyStore.Mark`,
  `NeverRaisesExactly`); `MarkUnderLocks` is the case of five locked inserts.
- The parser means to accept both spellings of the expiry key (`src/services/protocol_parser.py:72-84`), but a falsy value
  other than null counts as missing under `expires_at` and not under `expiresAt`. There `""` goes to `fromisoformat` and
  the other falsy values mean "now". `SpellingInvariance` says exactly when the spelling shows, `ZeroExpirySpelling`
  gives two envelopes.
- `run_execute` says that any refusal writes an audit row (`src/services/checkout.py:109`). A parser error that is no
  `ProtocolParseError` leaves without a row: exactly the envelopes of `GateRaisesExactly`, `{"mandate": 1}` among them
  (`NumberedMandateRaises`).
- The route claims an event before it applies it (`src/main.py:247`), so a claimed event can be lost. It is lost for good
  exactly if its delivery is doomed in the sense of `LostExactly`: it crashed or failed, or its mandate is revoked before
  it has stored. `RevokedBetweenIsLost` is such a history, with its redelivery answered `already_processed`.

## Model

| member | source | states |
|---|---|---|
| Text.ContainsExactly | src/services/policy.py:90 | `needle in hay` holds exactly if the hay is something, the needle and something |
| Text.EndsWithExactly | src/services/protocol_parser.py:90 | A text ends with a suffix exactly if it is something and the suffix |
| JsonTree.ReadsExactly | src/services/webhook_apply.py:32-37 | `dict.get` gives the value of the first member under the key, and its default exactly without one |
| JsonTree.FalsyExactly | src/services/webhook_apply.py:34-35 | The falsy values: null, false, zero, and the empty text, list and dict |
| JsonText.ShortForm | src/services/audit.py:39 | Printable ASCII stands for itself but for quote and backslash; five control characters have a letter |
| JsonText.LongForm | src/services/audit.py:39 | Every other character becomes one `\u` escape with four lower hexadecimal digits, or two beyond U+FFFF |
| JsonText.ReadObjectDumpObject | src/services/audit.py:39 | Text printed by `json.dumps` reads back to the same members, in order, for every key and value over Unicode scalar values: escapes, surrogate pairs, and `null` apart from `"null"` |
| Audit.SortedPayloadIsSorted | src/services/audit.py:27-39 | `sort_keys` brings the ten keys into code-point order and moves every member with its value; none is lost |
| Audit.CanonicalReadsBack | src/services/audit.py:25-39 | A decoder recovers every field of a record from its canonical form |
| Audit.CanonicalNames | src/services/audit.py:27-38 | The canonical text is an object of ten members that holds each field of the record under its own key |
| Audit.HashInputInjective | src/services/audit.py:42-45 | The hashed text determines the record, given that the previous hash has a fixed length |
| Audit.OrderBySorts | src/services/audit.py:105-106 | `ORDER BY timestamp, entry_id` gives the same rows in strictly ascending key order |
| Audit.AscendingUnique | src/services/audit.py:105-106 | There is only one ascending order of a table, so the order of storage is invisible to the readers of the chain |
| Audit.AuditLogger.constructor | src/services/audit.py:51-55 | Opening a log leaves the rows that it has |
| Audit.AuditLogger.LastEntryHash | src/services/audit.py:66-71 | The hash of the row whose key exceeds all others, or the genesis hash for an empty table |
| Audit.AuditLogger.LogEntry | src/services/audit.py:73-99 | Appends one row that holds every field of the request under its own name, the caller's id and timestamp if they are not empty, and the current head; its own hash is the digest of that head followed by a text that reads back to the record. A taken id stores nothing |
| Audit.LogAndGetChain | src/services/audit.py:73-147 | What is logged for a mandate is in that mandate's chain afterwards |
| Audit.AuditLogger.VerifyChain | src/services/audit.py:101-126 | The loop decides exactly whether the rows in key order form a chain from the genesis hash with correct hashes |
| Audit.AuditLogger.GetFullChain | src/services/audit.py:128-133 | Every stored row, oldest first |
| Audit.AuditLogger.GetChain | src/services/audit.py:135-147 | Exactly the rows of one mandate, in the order in which the full chain has them |
| Audit.SliceOfFullChain | src/services/audit.py:128-147 | Filtering and ordering commute: a mandate's chain is a slice of the full chain |
| Audit.HeadFixesRows | src/services/audit.py:101-126 | Two verified chains with one last hash are equal row for row, or two records share a digest, or one has the genesis hash; lengths may differ |
| Audit.HeadFixesTable | src/services/audit.py:42-45 | The same for two tables and SHA-256: equal in every field, or two different hashed texts with one digest, or a preimage of the genesis hash |
| AuditSchedule.VerifiedIffSerial | src/services/audit.py:66-126 | With reads and commits of many workers interleaved, the table verifies exactly if every commit was undisturbed since its worker's read and on top of all stored keys |
| AuditSchedule.VerifiedIffSerialOrBrokenSha | src/services/audit.py:42-126 | The same without any assumption on SHA-256, with a collision or a genesis preimage as the only way out |
| AuditSchedule.BrokenStaysBroken | src/services/audit.py:79-126 | In an interleaved history a prefix that does not verify is never repaired, not even by rows whose read is stale |
| AuditSchedule.BrokenTableStaysBroken | src/services/audit.py:66-126 | Whatever table does not verify, edited, truncated or torn by a schedule, no sequence of calls of the logger makes it verify, unless two hashed texts share a digest or one has the genesis hash |
| AuditSchedule.SerialChains | src/services/audit.py:79-98 | Undisturbed commits leave the table sorted and chained in the order in which they were committed |
| AuditSchedule.AdjacentStepsAreOneCall | src/services/audit.py:80-98 | A read followed at once by its commit is one call of the logger, and is undisturbed |
| Timestamps.IsoOrder | src/services/audit.py:82 | UTC `isoformat` texts compare as strings as the instants they name, with and without microseconds, over the Gregorian calendar |
| Timestamps.ReadsBack | src/services/audit.py:82 | A reader of `YYYY-MM-DDTHH:MM:SS[.ffffff]+00:00` recovers the time that the text was written for |
| Timestamps.InstantExactly | src/services/audit.py:82 | An instant counts days of 24 hours of 60 minutes of 60 seconds in microseconds |
| Timestamps.DaysBeforeYearExactly | src/services/audit.py:82 | The instants count the days of the Gregorian calendar: a leap day every four years, but for centuries not divisible by 400 |
| Timestamps.ClockOrdersKeys | src/services/audit.py:82 | A clock that moves strictly forward produces growing row keys whatever the row ids are |
| AuditClock.VerifiedIffOrderly | src/services/audit.py:79-126 | With time, read and commit as separate steps of many workers and a clock that moves strictly forward, the log verifies exactly if no insert falls between a read and its commit and every row inserted earlier was stamped earlier |
| AuditClock.VerifiedIffOrderlyOrBrokenSha | src/services/audit.py:42-126 | The same without any assumption on SHA-256, with a collision or a genesis preimage as the only way out |
| AuditClock.ClockedRunVerifies | src/services/audit.py:79-126 | Calls with no insert between their time and their commit leave a log that verifies, whatever SHA-256 does |
| AuditClock.LateCommitBreaks | src/services/audit.py:82-98 | A six-event history with a clock that moves forward and undisturbed commits that does not verify |
| Vaults.Vault.constructor | src/services/vault.py:32-36 | Opening a vault leaves the mandates and denials that it has |
| Vaults.Vault.StoreMandate | src/services/vault.py:60-83 | Fails exactly for a revoked id and then changes nothing; otherwise the row is the new mandate's, whoever's agent it was before, and nothing else changes |
| Vaults.Vault.GetMandate | src/services/vault.py:100-107 | The stored payload of that very id, or nothing for an unknown id |
| Vaults.Vault.ValidateMandate | src/services/vault.py:109-132 | The query with its outer join decides exactly: stored, not revoked, agent not denied, not expired |
| Vaults.Vault.RevokeMandate | src/services/vault.py:134-141 | Revokes a known id; an unknown id stays unknown |
| Vaults.Vault.IsDenied | src/services/vault.py:143-147 | Membership in the denylist |
| Vaults.Vault.AddToDenylist | src/services/vault.py:149-158 | Every mandate of the agent becomes unusable at every time, and no other table changes |
| Vaults.JoinDecides | src/services/vault.py:112-132 | Every row that the outer join can return gives the verdict of the declarative predicate, and there is none only for an unknown id |
| Vaults.HistoriesKeepConsistent | src/services/vault.py:60-83 | Over all call sequences the columns `agent_id` and `expires_at` agree with the payload stored beside them |
| Vaults.RevocationIsFinal | src/services/vault.py:60-141 | After a revocation no sequence of calls makes the id usable or storable or changes its row |
| Vaults.DenylistGrows | src/services/vault.py:134-158 | No call removes a denial or a mandate |
| Vaults.UsableExactly | src/services/vault.py:60-158 | Usability read off the calls alone: the latest store for the id, no revocation after the first store, no denial of the latest agent, not expired |
| Policy.PolicyEngine.constructor | src/services/policy.py:49-51 | The engine keeps the vault and catalog it is given |
| Policy.PolicyEngine.EvaluateProposal | src/services/policy.py:53-98 | The loops with their early returns refine the declarative verdict with its fixed precedence of reasons; the result names the proposal's mandate and lists its one reason |
| Policy.FoundOffer | src/services/catalog.py:53-58 | A lookup finds an offer exactly if it is the merchant's first one of the SKU, and nothing exactly if the merchant is unknown or offers no such SKU |
| Policy.AllowedPrices | src/services/policy.py:64-74 | Every line of an allowed proposal has a listed SKU and the unit price of the first offer of that SKU |
| Policy.InventedPricesRefused | src/services/policy.py:69-74 | A line priced unlike every offer of its SKU is never allowed |
| Policy.DiscountByOffer | src/services/policy.py:79-84 | A line's part of the discount bound is the largest percentage of its SKU's first offer on the line's price, rounded down |
| Policy.MaxDiscountNext | src/services/policy.py:71-84 | The bound is the sum of the lines' parts |
| Policy.JoinConcat | src/services/policy.py:29-34 | Texts are joined by single spaces |
| Policy.DarkExactly | src/services/policy.py:13-91 | A copy is dark exactly if its texts, joined by single spaces and put in lower case, contain one of the twelve phrases; a dict counts by its values |
| Policy.FirstFailureWins | src/services/policy.py:53-98 | The reason given is the first, in the fixed precedence, of all the guardrails that the proposal breaks, each told on its own; a proposal is allowed exactly if it breaks none |
| Policy.PermutationInvariance | src/services/policy.py:66-84 | The whole result, reason code included, is the same for any permutation of the lines |
| Policy.DiscountBounds | src/services/policy.py:71-84 | Rounding each of n lines down costs less than one paisa a line against the exact percentage and never gains |
| Policy.DiscountBelowGross | src/services/policy.py:79-84 | The largest discount never exceeds the catalog price of the lines |
| Policy.SplitLosesLittle | src/services/policy.py:71-84 | Splitting a line's quantity into k lines lowers the bound by at most k - 1 paise and never raises it |
| Firewall.RefusedIffOffence | src/services/firewall.py:64-103 | A dict is refused exactly if some path of the tree leads to a listed key, a refused character, or a listed phrase once invisible characters are gone |
| Firewall.WithoutConcat | src/services/firewall.py:49-50 | Deleting characters from a text deletes them from each part |
| Firewall.WithoutOne | src/services/firewall.py:49-50 | A single character is deleted exactly if it is listed |
| Firewall.RefusedExactly | src/services/firewall.py:15-103 | The verdict told without the tables: refused with `idpi_detected` exactly for a payload that is no dict or in which some path leads to one of four keys, to one of 18 characters, or to a string that without its soft hyphens contains a phrase of injected text in lower case |
| Firewall.SoftHyphenCongruence | src/services/firewall.py:38-103 | Trees that differ by soft hyphens in string values at any depth get one verdict and one cleaned tree |
| Firewall.AcceptedOutput | src/services/firewall.py:82-103 | What is passed on has the same shape and keys, no invisible character, differs by deleted soft hyphens alone, and is a fixed point of the firewall |
| ProtocolParser.NormalizeToMandate | src/services/protocol_parser.py:70-117 | The loop that builds the items and the early raises compute the mandate of the resolved fields, with its two refusals and every other exception |
| ProtocolParser.ParsedIsWellFormed | src/services/protocol_parser.py:70-117 | A parsed mandate has non-empty ids and allow-list, a non-negative maximum, no payment state, and the items of the envelope in their order with positive quantities and non-negative prices |
| ProtocolParser.ParsedIds | src/services/protocol_parser.py:73-109 | The ids of a parsed mandate are the first truthy ones among the fields that may name them, nested ones last |
| ProtocolParser.ParsedTerms | src/services/protocol_parser.py:75-114 | Amount, currency and allow-list of a parsed mandate by the envelope's fields, with their second names and defaults |
| ProtocolParser.ParsedExpiry | src/services/protocol_parser.py:78-115 | The expiry of a parsed mandate by the envelope's fields: an ISO text without its trailing Zs, a coerced value, or now |
| ProtocolParser.StripZExactly | src/services/protocol_parser.py:89 | All trailing Zs go, and nothing else |
| ProtocolParser.ParsedItems | src/services/protocol_parser.py:79-116 | The items of a parsed mandate stand for the envelope's, one by one and in order |
| ProtocolParser.ItemExactly | src/services/protocol_parser.py:99-105 | An item parses exactly if its fields, with their defaults, stand for one, and to that one |
| ProtocolParser.RefusesExactly | src/services/protocol_parser.py:81-85 | Exactly which envelopes the parser refuses for a missing id and which for a missing expiry |
| ProtocolParser.RaisesExactly | src/services/protocol_parser.py:70-117 | Exactly which envelopes raise something else than the parser's own error, told by their fields: an id sought in something that is no dict, or both ids and an expiry with an unreadable expiry, item, amount or allow-list |
| ProtocolParser.SpellingInvariance | src/services/protocol_parser.py:73-115 | For every choice of key per field and every protocol, envelopes with the same values parse alike up to the protocol, if and only if it is not the case that both ids are truthy and the expiry is falsy, not null and spelled differently |
| ProtocolParser.ZeroExpirySpelling | src/services/protocol_parser.py:78-115 | Two envelopes that differ in the name of a zero expiry: one is refused, the other parses |
| Executor.TransientExactly | src/services/checkout.py:24-33 | Exactly the attempts worth one more: stopped by chaos, timed out, dropped, or answered with a status from 500 to 599 |
| Executor.RazorpayClient.Create | src/services/executor.py:49 | One more order request is on the wire, unchanged |
| Executor.PaymentExecutor.CreateOrder | src/services/executor.py:37-49 | The client receives one order with the given amount, currency and receipt, unless chaos stops the call first |
| Executor.PaymentExecutor.Execute | src/services/executor.py:57-72 | The order carries the proposal's total, the mandate's currency and the mandate's id; a payment is captured, and its response returned beside the order's, exactly if the order came back, capture is on and a payment is named |
| Executor.PaymentExecutor.CapturePayment | src/services/executor.py:51-55 | One capture of the given amount reaches the client unless chaos stops it first |
| Checkout.NoteOfRefusal | src/services/checkout.py:83-94 | A refusal row's metadata reads back to its reason code and to whether the payment was retried, for every code |
| Checkout.RefusalMetadataText | src/services/checkout.py:83-92 | The metadata of a refusal is the JSON text of its reason code, with `retried` behind it after a retry |
| Checkout.GatePassesExactly | src/services/checkout.py:110-129 | The gate is open for no envelope, and for exactly those to which the firewall has no objection, under a known protocol, whose cleaned fields give a mandate with the proposal's id |
| Checkout.GateStopsExactly | src/services/checkout.py:112-128 | The code of every stop: `idpi_detected`, `unknown_protocol`, the parser's own code, `mandate_invalid`, in this order |
| Checkout.GateNeverBlamesExecutor | src/services/checkout.py:110-129 | An envelope never produces `executor_failure`, and passes only for the proposal's own mandate id |
| Checkout.GateRaisesExactly | src/services/checkout.py:109-125 | Exactly which envelopes leave a run without result and row: let through by the firewall, for a known protocol, with cleaned fields that make the parser raise something else |
| Checkout.NumberedMandateRaises | src/services/protocol_parser.py:73 | The envelope `{"mandate": 1}` is one of them |
| Checkout.ExecuteOnceWithRetry | src/services/checkout.py:40-63 | A second attempt follows exactly a first one that was stopped by chaos, timed out, was dropped or met a 5xx status; attempts, orders sent and the retried flag agree |
| Checkout.DecideRun | src/services/checkout.py:131-146 | The policy and the vault read after it decide as the declarative decision does |
| Checkout.RunExecute | src/services/checkout.py:97-177 | One run that nothing disturbs leaves exactly the attempts, orders, result and single audit row of its conclusion, or nothing at all if the envelope raises |
| Checkout.ConclusionIsAccounted | src/services/checkout.py:40-177 | Allowed, paid and `ok` are one; a refusal records its code; a refused gate means no attempt, never more than two, and two exactly after a transient first fault, which is exactly when the row says `retried` |
| Checkout.ConclusionNamesMandate | src/services/checkout.py:66-177 | Row and result name the proposal's mandate, the row names the agent exactly if a payment was tried, the payment returned is what the last attempt brought, and every order is for the quoted total in the stored mandate's currency |
| CheckoutHistory.EveryRunIsAccounted | src/services/checkout.py:97-177 | For every run of every history, whatever interleaves and wherever it faults: it has returned exactly if one row, and only one, is its own; that row and its result name its mandate and agent, return what its last attempt brought, and account for its attempts and orders, with the returned reason and no attempt behind a gate's refusal |
| CheckoutHistory.RetriesExactly | src/services/checkout.py:40-63 | A returned run made two attempts exactly if its first paying event met a transient fault, and none exactly if it has no paying event; it paid under a mandate that an earlier event of its own fetched |
| CheckoutHistory.RetryIsAnEvent | src/services/checkout.py:58-63 | The retry that a run remembers is an event of its own, made while its first attempt stood failed |
| CheckoutHistory.StoppedRun | src/services/checkout.py:110-129 | In any history a run that the gate stops makes no attempt and sends no order, and its result and row carry the gate's code |
| CheckoutHistory.ObjectionableRun | src/services/checkout.py:112-117 | A run begun with an envelope that the firewall objects to anywhere is refused with `idpi_detected` before any attempt |
| CheckoutHistory.Reconciliation | src/services/checkout.py:40-177 | Over every history attempts equal the rows that are `ok` or `executor_failure`, plus the rows marked retried, plus the attempts of runs that have not returned: at most two for each that is in flight or that an exception stopped after it paid; there are as many rows as returned runs |
| CheckoutHistory.GateSoundness | src/services/checkout.py:131-151 | Behind every order stand four ordered events of its run: validated while usable, checked against the mandate then stored, fetched, sent; the amount and SKUs are within the checked mandate, whatever clients did in between |
| CheckoutHistory.TotalWithinBounds | src/services/checkout.py:131-151 | All orders of a history together stay within twice the maxima that its runs' policy steps read |
| CheckoutHistory.EnvelopeNonInterference | src/services/checkout.py:110-151 | Two histories that differ only in envelopes that pass their gate, or in having none, are the same in every table and every result |
| CheckoutHistory.EnvelopeOnlyRefuses | src/services/checkout.py:110-129 | Adding an envelope to one run of any history leaves the whole history as it is, or that run is refused or ended by an exception without attempt and order, and every other run, row and order, the vault and the clock are as they were |
| CheckoutHistory.AloneConcludes | src/services/checkout.py:97-177 | The stages of a run that nothing disturbs add up to what the whole call does |
| Idempotency.IdempotencyStore.Seen | src/services/idempotency.py:54-59 | Answers whether the row is present, or raises, and changes nothing |
| Idempotency.IdempotencyStore.Insert | src/services/idempotency.py:70-83 | The row is inserted exactly if the statement is accepted and the key is free; other rows stay |
| Idempotency.IdempotencyStore.Mark | src/services/idempotency.py:61-89 | With other workers inserting before every access, exact conditions on the database's answers for each of True, False and an exception; True means that this call inserted the row, False that it is present, and an exception that this call inserted nothing |
| Idempotency.NeverRaisesExactly | src/services/idempotency.py:61-89 | The call keeps its promise never to raise exactly if one of five rounds inserts or finds the key before any round fails |
| Idempotency.MarkUnderLocks | src/services/idempotency.py:64-89 | Five locked inserts with nobody else at work make it raise |
| Idempotency.MarkTwice | src/services/idempotency.py:61-89 | After a call that answered, no later call for the key claims it, whatever happens to the tables in between |
| WebhookApply.KeyByFields | src/services/webhook_apply.py:25-37 | The key of an event by the payload's fields: the type, then the order id whatever the payment id is; the payment id only where the order id is falsy; the creation time only where both are |
| WebhookApply.SharedKey | src/services/webhook_apply.py:30-37 | Applyable events with string ids share a key exactly if they have one type and one base id, or one type, no id and one rendering of `created_at` |
| WebhookApply.EntryNamesEvent | src/services/webhook_apply.py:112-119 | The event id can be read back from the audit row, whatever characters it has; the row names the mandate and its agent |
| WebhookApply.MetadataReadsBack | src/services/webhook_apply.py:112-119 | The compact metadata is a JSON object that reads back to event id, type and payment id |
| WebhookApply.SameAuthorityDecides | src/services/policy.py:53-98 | Vaults that differ in payment fields alone validate every mandate and judge every proposal alike |
| WebhookApply.StoreKeepsAuthority | src/services/webhook_apply.py:97-105 | Storing the update of a mandate keeps spend authority exactly if the id is revoked or the row replaced still has that mandate's authority |
| WebhookApply.ApplyVerifiedEvent | src/services/webhook_apply.py:57-127 | One event changes the payment fields of the mandate it names and adds its row, or changes nothing and says why; spend authority is untouched |
| WebhookApply.EffectByFields | src/services/webhook_apply.py:40-121 | The effect by the payload's fields: a truthy `mandate_id` in notes that are a dict names the mandate, else a truthy order id does, else nothing is applied; the named mandate's payment fields, from type and payment id, and no other row change, and the audit row says so |
| WebhookApply.NotedIdReads | src/services/webhook_apply.py:42-46 | The id in the notes is what their `mandate_id` reads as |
| WebhookApply.OtherEventsDoNothing | src/services/webhook_apply.py:69-76 | Other event types change nothing, and a type that is a list or a dict raises |
| WebhookApply.RazorpayWebhook | src/main.py:239-289 | Which response follows from signature, body and claim; no table changes before signature and body are checked, and mandates and log change only for the call that claimed the key |
| WebhookHistory.AtMostOnce | src/main.py:276-289 | Over any interleaving of deliveries, locks and crashes each key is claimed by one delivery, stored for at most once and recorded at most once, every row's key is in the table, and `applied` is answered exactly with a row |
| WebhookHistory.OneClaimForAnOrder | src/services/webhook_apply.py:30-37 | Of two events of one type for one order, whatever their payment ids, only the first claims, and the other is answered `already_processed` |
| WebhookHistory.MarkAnswers | src/services/idempotency.py:61-89 | A delivery claims at exactly the event that inserts its key; `already_processed` is answered only with the key present and not by its claimant; keys are never removed |
| WebhookHistory.MarkingIsMark | src/services/idempotency.py:61-89 | The marking stages of a delivery end as one call of `mark` does, for all answers and all inserts of others |
| WebhookHistory.LostExactly | src/main.py:276-289 | Exactly when a claimed event is recorded neither now nor in any continuation: its claimant crashed, ended otherwise, has no mandate to look up, or the mandate was revoked before the store |
| WebhookHistory.RevokedBetweenIsLost | src/services/vault.py:64-65 | A revocation between read and store loses the event for good, and its redelivery is answered `already_processed` |
| WebhookHistory.RowsTell | src/services/webhook_apply.py:69-121 | In every history a row names the mandate that its event resolves to and the outcome that the event reports |
| WebhookHistory.AuthorityExactly | src/services/webhook_apply.py:88-105 | After every event of a history the vault has the authority that clients' calls alone give it, if and only if no delivery stored over an authority that changed since its read |
| WebhookHistory.WebhooksNeverMoveAuthority | src/services/webhook_apply.py:88-105 | If no client stores a mandate between a delivery's read and store of it, every validation and every proposal is decided as if there were no webhooks |
| WebhookHistory.UpdateIsLost | src/services/webhook_apply.py:88-105 | The concrete interleaving that breaks this: the mandate that a client replaced in between comes back |
| WebhookHistory.RevocationSurvivesWebhooks | src/services/webhook_apply.py:105 | Whatever interleaves, webhooks create, revoke and revive nothing: what clients revoked stays unusable |
| WebhookHistory.PaymentsAreTheFold | src/services/webhook_apply.py:97-105 | Each mandate's payment status and last payment id are those of the latest accepted write in the history |
| WebhookHistory.AloneFollowsPlan | src/main.py:276-289 | The accesses of a delivery that nothing disturbs add up to what the route does in one go |

## Left out

- Checkout.RunExecute: one clock reading and no other client during the call, because interleaved runs are the subject of `CheckoutHistory`; its caller passes the policy engine's own vault, as the application's dependencies do.
- Checkout.ConclusionIsAccounted: for a run that nothing disturbs; `CheckoutHistory.EveryRunIsAccounted` is its counterpart for interleaved runs.
- Checkout.ConclusionNamesMandate: likewise.
- CheckoutHistory.EveryRunIsAccounted: a run counts as returned once its row is committed; that its caller may still miss the answer is not modelled.
- AuditClock.VerifiedIffOrderly: for calls that name no timestamp of their own, as those of checkout and webhook, and a clock that never shows one time twice; `AuditSchedule.VerifiedIffSerial` covers any timestamps.
- AuditSchedule.VerifiedIffSerial: a commit that the database refuses for a taken id or without a read leaves no row; other database faults are commits that never happen.
- WebhookHistory.AtMostOnce: the log is the sequence of entries; how concurrent entries chain is the subject of `AuditSchedule`.
- WebhookApply.SharedKey: only for base ids that are strings, because a number's rendering is an arbitrary function.
- Agents, `register_agent` and `verify_signature`: checkout never calls them.
- SQLite, SQLAlchemy and schema creation: tables are maps or sequences with a primary key, one statement is atomic, and a "locked" answer means that nothing was committed.
- The JSON text of a stored mandate: the payload is the mandate, and its expiry is an instant, so the branch for unreadable stored dates does not occur.
- Naive datetimes: every instant is in UTC.
- Pydantic's coercions, `fromisoformat`, Unicode lower-casing and number rendering: arbitrary functions.
- Text with lone surrogates: strings are sequences of Unicode scalar values.
- JSON nested too deeply for the interpreter, and repeated keys inside one object: the first of repeated keys counts.
- Waiting between attempts: backoff and lock delays take no time.
- Catalog loading, validation and search: a merchant's offers are a given list and the first match counts.
- FastAPI routing, dependency injection, configuration, logging, CORS and MCP.
- Razorpay's response bodies: opaque texts.
- Key restrictions at start-up: the live-key guard of the executor is a configuration check.
