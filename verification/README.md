# Payment orchestration core of finsense, modelled in Dafny

This project models the business-to-consumer payment orchestration of the
finsense service (`PaymentService`) and the validation constraints of its
inbound request (`B2CPaymentRequest`).

- **Initiation** (`initiatePayment`). A null amount throws. A non-positive
  amount, or a provider tag no registered adapter serves, is an invalid
  request with no effect. Otherwise the service saves a PENDING record under
  a fresh id and hands that record to the first adapter whose tag equals the
  provider ignoring case. It then saves the outcome and queues one
  notification job. On success the record is IN_PROGRESS with the provider's
  id, and the job is tagged SUCCESS. On an adapter exception the record is
  FAILED with a reason, the job is tagged FAILED, and the caller gets a
  payment error.
- **Status lookup** (`getPaymentStatus`): the record stored under the id, or
  nothing.
- **Provider callback** (`processProviderStatusUpdate`): the record with the
  provider's id gets the new status and failure reason. It is saved once and
  one job is queued. An unknown provider id changes nothing. A null provider
  id looks up the records that have no provider id.
- **Notification** (`notifyRecipient`): scheduling appends a job to a queue.
  Running a job re-reads the record and picks the message template from the
  job's tag. It then hands the text to the SMS gateway and swallows any
  gateway failure.
- **Request validation**: the phone number must match `^\+[1-9]\d{1,14}$`,
  the international number shape of ITU-T Recommendation E.164 (a plus sign
  and at most 15 digits). The amount must be present and at least 0.01.
  Currency and provider must be non-blank.

Everything is a pure function over an explicit `State`. The state holds the
store (a map from id to record) and one ordered trace of store writes and
adapter calls. It also holds the notification job queue. Exceptions the
source throws are result variants. Adapter answers and SMS gateway answers
are inputs.

Modules: `Optional`, `JavaText` (null rendering, `equalsIgnoreCase`,
`trim`), `PaymentModel`, `RequestValidation`, `TransactionStore`,
`Providers`, `PaymentState`, `Notifications`, `PaymentService` and
`ServiceProperties` (properties that relate several operations).

Behaviour of the code worth knowing:

- Initiation itself checks only the amount and the provider. Blank
  currencies and malformed phone numbers are rejected only by the request
  validator in front of it.
- The success path queues a job tagged SUCCESS while it stores IN_PROGRESS.
  The message follows the tag, not the record it re-reads
  (`ServiceProperties.SuccessNotificationDescribesInProgressRecord`).
- The rule "a failure reason is set exactly when the status is FAILED" holds
  for records that initiation creates. A provider callback can break it
  (`ServiceProperties.CallbackMayBreakReasonInvariant`).
- Adapter tags are not checked for uniqueness: the first matching adapter in
  registration order wins.
- The callback passes its provider id to the repository unchecked. A null id
  becomes an `IS NULL` query, which matches records that never received a
  provider id, such as those that failed at initiation
  (`ServiceProperties.NullProviderIdMatchesUnassignedRecord`).

## Model

| member | source | states |
|---|---|---|
| `JavaText.Show` | src/main/java/com/finsense/service/PaymentService.java:140 | a string concatenated into a message appears as itself, and a null one as `null` |
| `JavaText.EqualsIgnoreCase` | src/main/java/com/finsense/service/PaymentService.java:138 | two strings are equal ignoring case exactly when the argument is non-null, the lengths agree and the upper-cased characters agree position by position |
| `JavaText.Trim` | src/main/java/com/finsense/model/B2CPaymentRequest.java:13-24 | `trim` never lengthens a string, leaves a result that starts and ends with a character above U+0020, and keeps an already trimmed string unchanged |
| `JavaText.TrimIsMiddle` | src/main/java/com/finsense/model/B2CPaymentRequest.java:13-24 | the trimmed string is the contiguous middle of the input that starts at its first character above U+0020, and everything removed before and after it is at or below U+0020 |
| `JavaText.FirstVisible` | src/main/java/com/finsense/model/B2CPaymentRequest.java:13-24 | the scan for the start of the trimmed text stops at the first character above U+0020, passing only characters at or below it |
| `JavaText.VisibleEnd` | src/main/java/com/finsense/model/B2CPaymentRequest.java:13-24 | the scan for the end of the trimmed text stops after the last character above U+0020, dropping only characters at or below it |
| `JavaText.NotBlank` | src/main/java/com/finsense/model/B2CPaymentRequest.java:13-24 | `@NotBlank` holds exactly when the value is non-null and has a character above U+0020 |
| `JavaText.EqualsIgnoreCaseIsEquivalence` | src/main/java/com/finsense/service/PaymentService.java:138 | the tag comparison used for provider selection is reflexive, symmetric and transitive |
| `JavaText.TrimEmptyIffNoVisibleChar` | src/main/java/com/finsense/model/B2CPaymentRequest.java:13 | `@NotBlank` (non-empty after `trim`) holds exactly when the string has a character above U+0020 |
| `RequestValidation.ScanPhoneNumber` | src/main/java/com/finsense/model/B2CPaymentRequest.java:14 | a left-to-right scan accepts a phone number exactly when it matches the whole pattern `^\+[1-9]\d{1,14}$` |
| `RequestValidation.PhonePatternIsE164Shape` | src/main/java/com/finsense/model/B2CPaymentRequest.java:14 | the pattern accepts exactly a plus sign and 2 to 15 digits with a non-zero first digit; rendering digits and reading them back round-trips both ways |
| `RequestValidation.MatchesPhonePattern` | src/main/java/com/finsense/model/B2CPaymentRequest.java:13-14 | a phone number matching the pattern also satisfies `@NotBlank` |
| `RequestValidation.RenderedDigitsMatch` | src/main/java/com/finsense/model/B2CPaymentRequest.java:14 | two to fifteen digits with a non-zero first digit, written after a plus sign, match the pattern and read back as the same digits |
| `RequestValidation.DigitsRenderBack` | src/main/java/com/finsense/model/B2CPaymentRequest.java:14 | a matching number is exactly the plus sign followed by its own digits |
| `RequestValidation.MessagesDiffer` | src/main/java/com/finsense/model/B2CPaymentRequest.java:13-24 | the six declared constraint messages are pairwise different, so each reported message names one constraint |
| `RequestValidation.Violations` | src/main/java/com/finsense/model/B2CPaymentRequest.java:13-24 | each constraint is reported exactly when it is broken: "required" for a null or blank phone, "format" only for a non-null phone off the pattern, "Amount is required" only for a null amount, the minimum only for a non-null amount below 0.01, and currency and provider when blank |
| `RequestValidation.ValidRequest` | src/main/java/com/finsense/model/B2CPaymentRequest.java:13-24 | an accepted request has a non-blank phone, currency and provider and a positive amount |
| `RequestValidation.ValidRequestIffNoViolations` | src/main/java/com/finsense/model/B2CPaymentRequest.java:13-27 | the validator reports no violation message exactly for requests satisfying the `ValidRequest` predicate |
| `RequestValidation.ValidAmountIsPositive` | src/main/java/com/finsense/model/B2CPaymentRequest.java:17-18 | an amount present and at least 0.01 also passes the service's `amount > 0` check |
| `RequestValidation.DescriptionIsUnconstrained` | src/main/java/com/finsense/model/B2CPaymentRequest.java:27 | changing or removing the description changes neither validity nor the violations reported |
| `RequestValidation.EmptyPhoneRejected` | src/main/java/com/finsense/model/B2CPaymentRequest.java:13-14 | an empty phone number raises both the "required" and the "format" violation, so the request is invalid |
| `RequestValidation.SampleRequestIsValid` | src/test/java/com/finsense/PaymentServiceTest.java:58-63 | the tests' request (`+254712345678`, 100.00, `KES`, `MOCK`) is valid |
| `TransactionStore.Save` | src/main/java/com/finsense/service/PaymentService.java:70 | `save` files the record under its id, keeps every other record, adds no other key and keeps records filed under their ids |
| `TransactionStore.FindByProviderTransactionId` | src/main/java/com/finsense/repository/PaymentTransactionRepository.java:11 | not found exactly when no record has the given provider id (null matching the records without one); a found record is stored, has that id and is the only one; the result is non-unique exactly when two distinct stored records share it, so non-null provider ids are not unique |
| `TransactionStore.FindById` | src/main/java/com/finsense/service/PaymentService.java:108 | `findById` yields a record exactly when the id is a stored key, and then the record stored under it (also the re-read at line 146) |
| `PaymentState.CallAdapter` | src/main/java/com/finsense/service/PaymentService.java:75 | the adapter call is logged once, after the earlier effects, with the adapter's tag and the saved record it was handed; store and job queue are unchanged |
| `PaymentState.Persist` | src/main/java/com/finsense/service/PaymentService.java:70 | a write files the record under its id, adds no other key, leaves the job queue alone and appends exactly one write to the log |
| `Notifications.Schedule` | src/main/java/com/finsense/service/PaymentService.java:143-144 | scheduling appends exactly one job with the given id and tag after the earlier ones, and changes neither the store nor the log |
| `Providers.FirstServing` | src/main/java/com/finsense/service/PaymentService.java:137-139 | the result is the least index from the start position whose adapter serves the provider, and absent exactly when none does |
| `Providers.FindMobileMoneyService` | src/main/java/com/finsense/service/PaymentService.java:136-141 | the first adapter whose tag equals the provider ignoring case is chosen; none is chosen when none matches or the provider is null |
| `Providers.SelectionIgnoresCase` | src/main/java/com/finsense/service/PaymentService.java:138 | two provider names equal ignoring case select the same adapter |
| `Notifications.MessageText` | src/main/java/com/finsense/service/PaymentService.java:150-175 | every message opens with the amount and currency; a FAILED message ends with the failure reason, or "Unknown" when there is none |
| `Notifications.TemplateDeterminesTag` | src/main/java/com/finsense/service/PaymentService.java:150-171 | for one record, two tags give the same message exactly when they are the same tag, so there is one template per status |
| `Notifications.MessageIgnoresRecordStatus` | src/main/java/com/finsense/service/PaymentService.java:150 | the message depends on the scheduled tag, never on the re-read record's status |
| `Notifications.RunNextJob` | src/main/java/com/finsense/service/PaymentService.java:144-187 | a job re-reads its record; a missing record sends nothing; otherwise the SMS goes to the record's phone with the tag's message; store and trace never change |
| `Notifications.SendErrorsAreSwallowed` | src/main/java/com/finsense/service/PaymentService.java:181-186 | the state after a job does not depend on whether the gateway delivered or threw |
| `PaymentService.NewPendingTransaction` | src/main/java/com/finsense/service/PaymentService.java:58-67 | the first record is PENDING under the fresh id, without provider id or failure reason, and reads back as exactly the request |
| `PaymentService.AfterAdapter` | src/main/java/com/finsense/service/PaymentService.java:75-98 | success gives IN_PROGRESS with the provider's id and tag SUCCESS; an external-API or other exception gives FAILED with the prefixed message (null rendered "null") and tag FAILED; request attributes never change |
| `PaymentService.Attempt` | src/main/java/com/finsense/service/PaymentService.java:69-101 | once past validation: save PENDING, then call the adapter with that record, then save the outcome, then queue one job; Ok exactly when the adapter returned an id |
| `PaymentService.InitiatePayment` | src/main/java/com/finsense/service/PaymentService.java:45-103 | null amount throws and non-positive amount or unserved provider is refused, all with no effect; otherwise exactly the fresh record is added, never left PENDING, with the ordered trace, status, provider id, failure reason and job the outcome dictates |
| `PaymentService.GetPaymentStatus` | src/main/java/com/finsense/service/PaymentService.java:105-116 | present exactly when the id is stored, and then the stored record, filed under that id; it returns no new state, so nothing changes |
| `PaymentService.ProcessProviderStatusUpdate` | src/main/java/com/finsense/service/PaymentService.java:118-134 | the record with the provider id (or, for a null id, the record without one) gets the new status and reason (null clears it), everything else kept, saved once, one job with the new status; unknown id or non-unique id changes nothing, and the lookup is non-unique exactly when two distinct stored records carry that id, so two matches are never applied |
| `ServiceProperties.InitiateWritesTwiceCallsOnce` | src/main/java/com/finsense/service/PaymentService.java:69-99 | an initiation reaching the adapter writes exactly twice (PENDING copy, then outcome) and calls the adapter once; any other writes and calls nothing and queues nothing |
| `ServiceProperties.StatusAfterInitiate` | src/main/java/com/finsense/service/PaymentService.java:102-116 | after initiation the lookup returns the caller's record on success, a FAILED record after a payment error, nothing after a refusal, and the same as before for every other id |
| `ServiceProperties.InitiatedRecordIsConsistent` | src/main/java/com/finsense/service/PaymentService.java:75-97 | a record initiation creates has a failure reason exactly when FAILED, a provider id exactly when the call succeeded, and status IN_PROGRESS or FAILED |
| `ServiceProperties.InitiatePreservesStoreInvariants` | src/main/java/com/finsense/service/PaymentService.java:58-89 | initiation keeps records filed under their ids, and keeps provider ids unique when the adapter returns an unused id |
| `ServiceProperties.CallbackPreservesStoreInvariants` | src/main/java/com/finsense/service/PaymentService.java:118-127 | a callback keeps records filed under their ids and provider ids unique, adds no record, and with unique ids a non-null id never meets the non-unique case |
| `ServiceProperties.CallbackRoundTrip` | src/main/java/com/finsense/service/PaymentService.java:120-127 | after an applied callback both the id lookup and the provider-id lookup return the updated record |
| `ServiceProperties.CallbackReplayLeavesStore` | src/main/java/com/finsense/service/PaymentService.java:118-130 | replaying a callback leaves the store and result as after the first, while the save repeats |
| `ServiceProperties.SuccessNotificationDescribesInProgressRecord` | src/main/java/com/finsense/service/PaymentService.java:77-82 | after a successful initiation the queued job sends the SUCCESS wording about a record stored as IN_PROGRESS, which differs from the IN_PROGRESS wording |
| `ServiceProperties.FailureNotificationQuotesReason` | src/main/java/com/finsense/service/PaymentService.java:155-158 | after a payment error the queued job's message ends with the stored failure reason, whatever the gateway does |
| `ServiceProperties.ValidRequestReachesAdapter` | src/main/java/com/finsense/service/PaymentService.java:50-55 | a valid request naming a registered provider always reaches the adapter and creates a record |
| `ServiceProperties.SingleAdapterServesItsTag` | src/main/java/com/finsense/service/PaymentService.java:136-139 | a lone registered adapter is selected by its own tag |
| `ServiceProperties.ExternalApiFailureScenario` | src/test/java/com/finsense/PaymentServiceTest.java:113-139 | an adapter throwing "Provider API error" yields a payment error, two saves, and a FAILED record with reason "External API error: Provider API error" |
| `ServiceProperties.SuccessScenario` | src/test/java/com/finsense/PaymentServiceTest.java:56-79 | a succeeding adapter yields IN_PROGRESS and its provider id; a provider written in lower case is accepted as well |
| `ServiceProperties.UnsupportedProviderScenario` | src/test/java/com/finsense/PaymentServiceTest.java:97-111 | an unregistered provider is refused with the unsupported-provider message and no state change |
| `ServiceProperties.CallbackMayBreakReasonInvariant` | src/main/java/com/finsense/service/PaymentService.java:124-125 | a callback to FAILED without a reason stores a FAILED record with no failure reason |
| `ServiceProperties.NullProviderIdMatchesUnassignedRecord` | src/main/java/com/finsense/service/PaymentService.java:118-127 | a callback with a null provider id overwrites the one record that has no provider id and queues its job |
| `ServiceProperties.NullProviderIdWithTwoUnassignedRecords` | src/main/java/com/finsense/repository/PaymentTransactionRepository.java:11 | with two records lacking a provider id, a null-id callback is a non-unique lookup and changes nothing |

## Left out

- Notification thread pool (`newFixedThreadPool`, `submit`, `shutdown`): concurrency. Scheduling is an append to a job queue, and running a job is a separate step that the model only takes after the operation has returned. In the source, `notifyRecipient` submits the job (PaymentService.java:82, :90, :98) while the `@Transactional` `initiatePayment` (:45) is still open, and it commits only when the method returns. A pool thread can run the job's `findById` (:146) before that commit, find no record and send nothing (:178-179). The model does not cover that interleaving.
- ServiceProperties.SuccessNotificationDescribesInProgressRecord: holds only when the job runs after `initiatePayment`'s transaction has committed. A job that runs earlier finds no record and sends no SMS.
- Timestamps (`createdAt`, `updatedAt`): wall-clock values are not modelled.
- Id generation: `PaymentIdGenerator` is not part of this model. The fresh id is a parameter that must be absent from the store.
- `@Transactional` rollback: `initiatePayment` runs as one transaction (PaymentService.java:45), and both of its saves join it. `PaymentException` is unchecked, so after an adapter exception a transaction manager rolls back the PENDING write and the FAILED write together. No record remains, and the queued FAILED job would find nothing. The model keeps the write log that the unit tests assert, and applies each write to the store.
- ServiceProperties.StatusAfterInitiate: its FAILED record after a payment error holds for the write log only. With the rollback, the committed store would have no record under the new id.
- ServiceProperties.FailureNotificationQuotesReason: holds for the write log only. With the rollback, the job's re-read would find no record and send nothing.
- ServiceProperties.ExternalApiFailureScenario: its FAILED record holds for the write log only. With the rollback, nothing would be stored.
- JPA mechanics: the repository is a map plus a lookup by provider id.
- HTTP layer, status-code mapping and security configuration: routing and framework wiring.
- Adapter `checkPaymentStatus`: the core never calls it.
- The mock adapter and the mock SMS gateway: their latency and random ids are replaced by adapter outcomes and gateway outcomes given as inputs.
- Races between a callback and an in-flight initiation, and the missing adapter timeout: concurrency and liveness, not sequential behaviour.
- Errors that are not `Exception`s escaping from the adapter, and exceptions thrown by the second save or by task submission inside the `try`: not modelled. The adapter outcomes are a return value, an external-API exception, or another exception.
- A null status in a callback: not modelled. The callback has no caller in the source, so nothing excludes it. It would be saved as given, and the notification job's `switch` on it would throw inside the job's own `catch`, so no SMS would be sent. The callback's null provider id and null failure reason are modelled.
- A null adapter tag and a null provider id returned by a succeeding adapter: not modelled. A null tag would throw inside provider selection, and a null returned id would leave an IN_PROGRESS record without a provider id.
- JavaText.EqualsIgnoreCase: folds case for ASCII letters only. Java's `equalsIgnoreCase` also folds non-ASCII letters.
- Providers.FindMobileMoneyService: ignores case for ASCII letters only, through `JavaText.EqualsIgnoreCase`.
- Notifications.MessageText: the amount's text is given as a parameter applied to the amount's value, not computed. Amounts are `real`s without a `BigDecimal` scale, so 100.0 and 100.00 render alike in the model, while `BigDecimal.toString` prints them differently. The switch's `default` template cannot be reached because the status set has exactly the five values the switch lists, so it is not modelled.
- JavaText.TrimEmptyIffNoVisibleChar: `@NotBlank` is modelled by the validator's `trim().length() > 0` rule. The validator library itself is not part of this model.
- JavaText.NotBlank: the same rule as above, so it is only as faithful as the `trim` rule.
