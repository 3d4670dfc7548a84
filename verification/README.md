# CodeCatch, verified

CodeCatch collects verification codes from many mailboxes. IMAP workers pull messages by UID
watermark, a rule-driven extractor picks the code, and a writer stores it once per recipient and
Message-ID, however often and through whichever mailbox the message arrives. Clients wait for codes
by long polling and consume them; administrators browse and consume them too. Mailboxes move through
a lifecycle of passwords, headless OAuth attempts, manual consent and token refresh, written by
several actors that interleave statement by statement. A manager keeps one worker per wanted mailbox,
and a small runner applies schema migrations.

The project models these parts and proves what they are for. `dafny verify dfyconfig.toml` checks all
of it.

## How the model is built

Code that changes state is a class whose fields are the tables or dictionaries it changes, with one
method per procedure. Every such method is proved equal to a specification: a function of the old
state, or a predicate between old and new. Code that only computes is a function. Where several
programs interleave, a step system (`Apply`, `Run` over a list of events, `World` as state) runs the
same statements one at a time, in any order, by any number of actors, with crashes anywhere; lemmas
show that the steps of one undisturbed actor add up to the procedure (`Ingestion.RoundIsBacklog`,
`OAuthLifecycle.TickIsRun`, `OAuthLifecycle.ExchangeIsRun`).

| module | part of the system |
|---|---|
| `DigitRuns`, `Extractor`, `Normalizer` | the seeded digit-run rules, rule-driven extraction, tag stripping |
| `CodeTable`, `CodeWriter` | the codes table with its unique index; `process_and_store` and its confluence |
| `Backlog`, `Ingestion`, `Drain`, `StoredImage` | one fetch round; any number of workers over shared tables; what completed rounds leave behind; mail and stored codes compared |
| `LongPoll`, `Consumers` | waiting for a code; consuming one |
| `Mailboxes`, `PasswordHistory`, `OAuthLifecycle`, `OAuthRefresh` | upserts, the password history, all writers of mailbox rows, token freshness |
| `WorkerPool` | the worker dictionary against the wanted mailboxes |
| `Queries`, `Pages` | the condition/value builders; paging of the admin's list |
| `Migrations` | the migration runner |

The three results that take most of the system together:

* `StoredImage.WatermarkMeansStored`, `WatermarkFactsAreStored`, `DrainedFactsAreStored` and
  `StoredCodesAreTheImage`: over every run, what lies at or below a saved watermark has its row (exactly
  one when it has a Message-ID), with its own tenant, platform and code; completed rounds make that the
  whole inbox (`Drain.RoundsSettle`); and when all inboxes are settled and nothing was expunged, the
  stored codes are exactly what the mail yields. A swallowed exception excuses only the message it hit.
* `OAuthLifecycle.ConsentFlowInvariant` and `LifecycleInvariant`: over every interleaving of requests,
  headless workers, callbacks, refreshes and deletions.
* `LongPoll.Poll.CodeWait`: no lost wake-up, a bound on the number of waits, and answers that are
  right at the instant of the last query.

## Where the code differs from what it says

The model follows the code. Each difference is a theorem with its exact condition; lemmas that give an
input where the two part are named beside it.

* The first round of a new mailbox takes the twenty oldest messages, not the newest
  (`workers/imap_worker.py:206` against lines 209 and 212). It takes the newest exactly when there are
  no more than twenty (`Backlog.FirstRoundIsNewestIff`, `TwentyOneMessages`).
* The watermark is overwritten, not raised. A quiet round lowers it exactly when everything from it on was
  expunged and something older is left (`Backlog.RoundLowersMarkIff`, `MarkFallsFromSevenToThree`); where
  two workers serve one mailbox, the slower one may lower it with nothing expunged. Coverage holds all the
  same.
* A writer exception is swallowed and the watermark passes the message. Only that message can lose its
  code, and only if the INSERT was still to come (`StoredImage.WatermarkMeansStored`,
  `SwallowedMessageIsPassed`); what is stored is exactly what got as far as an INSERT
  (`StoredImage.StoredIffInserted`).
* A token refresh reads the refresh token, asks the provider, and writes the rotated token without
  looking again. It replaces a token that is not the one it refreshed exactly when the answer rotates
  and another one was stored meanwhile (`OAuthLifecycle.RotationOverwritesIff`); so a consent given
  during a refresh can be lost, and `NewerConsentIsLost` is a run in which it is.
* `codecatch/db.py:21` says JSONB comes back as a dict by default. The model takes the decoding as a
  parameter: with it, two rounds drain any inbox (`Drain.RoundsSettle`); without it the watermark is
  never read back, and rounds drain an inbox exactly when it has at most twenty messages
  (`Backlog.UndecodedDrainsIffAtMostTwenty`).
* Storing is insensitive to order and repetition exactly when deliveries that share a new key agree
  (`CodeWriter.OrderInsensitiveIffAgreeing`, `UnregisteredTargetGoesToTheFirst`); with targets of real
  tenants and one content per Message-ID it only matters which messages are read, not through which
  mailboxes (`CodeWriter.Confluence`).
* "404 not found" on consume is false exactly when the row was committed after the failed update and
  is still unconsumed (`Consumers.FalseNotFoundIff`, `FalseNotFoundHappens`): the SELECT cannot tell a NULL from no row.
* The admin's target search is a substring search exactly for targets without `%`, `_` and backslash
  (`Queries.TargetSearchIsSubstringIff`).
* The admin's pages show every code exactly once exactly when no two pages meet inside a tie of
  `received_at`, because that order alone is not total (`Pages.PagesCompleteIffNoTieAcross`,
  `TieShowsARowTwice`).
* Migrations run in text order, not in the documented numeric order (`codecatch/migrations.py:3` against
  line 36). The two agree exactly when all versions have one width
  (`Migrations.NumericOrderIffOneWidth`, `TextOrderIsNotNumeric`).
* Of two migration files with one version the second is never applied, so every file is applied exactly
  when versions are distinct (`Migrations.EveryFileAppliedIffDistinct`, `SecondOfTwoNeverRuns`).
* With mode `auto`, a provider of any kind but `basic` is queued for headless consent when a password
  is given; the other modes do so for Google and Microsoft only (`Mailboxes.DecideStatus`).

## Assumptions

* IMAP: the server assigns strictly ascending UIDs and keeps UIDVALIDITY (section 2.3.1.1 of RFC
  3501), `UID n:*` means the range between `n` and the largest UID in either order (section 6.4.8 of
  RFC 3501), and a fetch answers in ascending order. A message's UID parses as a number.
* Regular expressions: the engine is a parameter, and so is the set of characters `\d` matches. Only
  the digit-run shape and `<[^>]+>` are written out. Patterns of equal priority come back in one
  fixed order.
* PostgreSQL: each autocommitted statement is atomic; the upsert's transaction is one step.
* Encryption: what was encrypted decrypts to itself, and a damaged ciphertext or wrong key fails.
* OAuth: a fresh `state` was never issued before, and only a published one can be presented to the
  callback. Provider rows do not change.
* Timers do not fire early. Notifications may be lost, delayed or sent for other rows.

## Model

| member | source | states |
|---|---|---|
| DigitRuns.MatchAtIsRun | db/init/01_seed.sql:99 | Giving digits back never helps: the pattern matches at a position exactly when a maximal digit run of permitted length begins there, and takes all of it |
| DigitRuns.SearchFindsLeftmostRun | db/init/01_seed.sql:130 | The backtracking search returns the leftmost maximal digit run of length m to n, or nothing when the text has none |
| DigitRuns.SearchEqualsScan | db/init/01_seed.sql:145 | Backtracking search and a scan that reads each character once agree on every text |
| DigitRuns.LeftmostFitUnique | db/init/01_seed.sql:114 | There is only one leftmost maximal run of permitted length, so the specification fixes the answer |
| DigitRuns.FitsSplitAtSeparator | workers/extractor.py:37 | The runs of subject, newline, body are the runs of the subject and those of the body, shifted |
| DigitRuns.BothIsSubjectThenBody | workers/extractor.py:31-37 | On the combined haystack the search finds what it finds in the subject, and otherwise what it finds in the body |
| DigitRuns.CapturedIsTheRun | db/init/01_seed.sql:99 | The captured text is the leftmost maximal run itself, whole, of m to n digits; nothing is captured exactly when the text has none |
| Extractor.FirstFit | workers/extractor.py:51-89 | The first pattern whose three guards all match: it fits and none before it does |
| Extractor.FirstFitUnique | workers/extractor.py:51-89 | Any index with that property is the one the loop stops at |
| Extractor.RunExtraction | workers/extractor.py:40-95 | The loop reports platform, code, id and name of the first fitting pattern; the candidates are exactly the tried prefix, each telling how far its pattern got |
| Extractor.GuardsAreOptional | workers/extractor.py:22-28 | An absent or empty guard always fits, any other exactly on a hit, so one that does not compile never does |
| Extractor.CandidatesTellTheStory | workers/extractor.py:52-81 | In the records the sender, subject and code flags imply each other in a chain, only the last can have matched, and one did exactly when a platform was reported |
| Extractor.DigitRunRuleOnBoth | workers/extractor.py:71-80 | A digit-run rule on 'both' yields the subject's run, else the body's, and fails only when neither has one |
| Extractor.DigitRunRuleOnSubject | workers/extractor.py:31-35 | A digit-run rule on 'subject', in any case, yields exactly the subject's run, whatever the body |
| Extractor.DigitRunRuleOnBody | workers/extractor.py:35-36 | One on 'body' yields exactly the body's, whatever the subject |
| Extractor.SpellingDoesNotMatter | workers/extractor.py:32 | 'Subject' and 'BODY' name the same haystacks as the small spellings |
| Normalizer.TagEnd | workers/normalizer.py:88 | A tag starts at a position exactly when this finds its end |
| Normalizer.StripFromIsTagFree | workers/normalizer.py:85-88 | No suffix of the output contains a match |
| Normalizer.StripHtmlIdempotent | workers/normalizer.py:85-88 | The output holds no tag, stripping twice is stripping once, and a text is unchanged exactly when it holds no tag |
| Normalizer.StripFromTiles | workers/normalizer.py:85-88 | Text from any position splits into tags and kept characters, that put together give the text and rendered give the output |
| Normalizer.StripHtmlKeepsTheRest | workers/normalizer.py:85-88 | Every text splits from the left into tags and characters at which none starts; the output is a space per tag and every other character in order, so each tag costs at least two |
| CodeTable.InsertKeepsValid | db/init/00_schema.sql:205-207 | The conflict-ignoring INSERT keeps ids ascending below the sequence and non-null (target, Message-ID) pairs unique |
| CodeTable.InsertAddsTheRow | workers/code_writer.py:75-91 | A row goes in exactly when its key is null or new and its source exists; then it is the last, with the values given, a fresh id, and unconsumed; otherwise all rows stay |
| CodeTable.InsertLeavesExactlyOne | workers/code_writer.py:75-89 | After an INSERT that raised nothing, a non-null key is on exactly one row, whether it went in or met a conflict |
| CodeTable.ValidKeyIsExactlyOne | db/init/00_schema.sql:205-207 | In a valid table a key that is there at all is on exactly one row |
| CodeWriter.Database.ProcessAndStore | workers/code_writer.py:18-113 | The statements in their order amount to Deliver: same rows, stamp, notice and outcome on every branch, exceptions included |
| CodeWriter.DeliverOnce | workers/code_writer.py:41-106 | A delivery adds at most one row, exactly the one it asks for, and adds it exactly when its key is not there |
| CodeWriter.StoringIsAnnounced | workers/code_writer.py:93-113 | A delivery that stores a row stamps the registered target and sends one notice on the row's tenant's channel with its id and target; any other does neither |
| CodeWriter.YieldIff | workers/code_writer.py:36-70 | A delivery asks for a row exactly when it has a recipient, its source is registered, and the first fitting pattern captures a code |
| CodeWriter.CodeBelongsToTarget | workers/code_writer.py:41-49 | The row is the tenant's of the mailbox the message was sent to, if that is registered under a real tenant, else of the mailbox it was read from |
| CodeWriter.RowTellsTheMessage | workers/code_writer.py:73-88 | The row has the message's own headers, at most two thousand characters of its body, its UID, and its date, or the clock where it has none |
| CodeWriter.DeliverAllImage | workers/code_writer.py:41-106 | Any sequence of deliveries keeps all rows; each new row was asked for under a key not there before; each key asked for is there at the end |
| CodeWriter.AgreeingImage | workers/code_writer.py:57-91 | With agreeing deliveries the stored facts are the old ones and what the set of deliveries asks for under new keys |
| CodeWriter.FirstComerWins | workers/code_writer.py:83-86 | The first of several deliveries with one key decides what is stored under it |
| CodeWriter.OrderInsensitiveIffAgreeing | workers/code_writer.py:83-86 | For any table and deliveries, every order with every repetition stores the same facts if and only if no two ask for different facts under one key not stored yet |
| CodeWriter.UnregisteredTargetGoesToTheFirst | workers/code_writer.py:49 | An input where they do not: one message to an unregistered target, read through the mailboxes of two tenants, is stored for whichever comes first |
| CodeWriter.TargetTenantWins | workers/code_writer.py:41-49 | A message to a target of a real tenant yields the same facts through every registered mailbox |
| CodeWriter.Confluence | workers/code_writer.py:41-91 | With targets of real tenants and one content per Message-ID, two sequences of deliveries that read the same messages store the same facts, whichever registered mailboxes they read them through, in which order and how often |
| CodeWriter.AnsweredAlike | workers/code_writer.py:41-70 | What a delivery is owed depends on source mailbox and message alone, not on the clock or the date |
| CodeWriter.InsertAnswers | workers/code_writer.py:72-91 | Inserting what a delivery asks for leaves it answered, also on a conflict |
| Backlog.SinceIsUidRange | workers/imap_worker.py:208 | The answer to `UID n:*` is exactly the messages between n and the largest UID in either order (section 6.4.8 of RFC 3501) |
| Backlog.BatchHasNoGap | workers/imap_worker.py:207-212 | A message at or below one of the batch is in the batch or at or below the watermark |
| Backlog.BatchIff | workers/imap_worker.py:207-212 | The messages of a round, exactly: with a watermark those above it and the last of the inbox, without one the first twenty |
| Backlog.FirstRoundIsNewestIff | workers/imap_worker.py:206-212 | The first round takes the newest twenty, as documented, if and only if the inbox has no more than twenty messages |
| Backlog.TwentyOneMessages | workers/imap_worker.py:209-212 | Of twenty-one messages the first round takes the oldest and leaves out the newest |
| Backlog.ImapWorker.FetchBacklog | workers/imap_worker.py:205-226 | One round hands over the batch, stores what the writer stores for it in order, counts what raised, and leaves the last UID as the watermark whatever raised; a failed fetch changes nothing |
| Backlog.NewRowsAreTheMessages | workers/imap_worker.py:220-257 | Each row a round adds is that of a message it handed over, under this mailbox and the message's UID, received at the message's date |
| Backlog.ImapWorker.ProcessMessage | workers/imap_worker.py:248-263 | The tables are as the writer left them; an exception is caught and counted, exactly when the writer raised one |
| Backlog.RoundLowersMarkIff | workers/imap_worker.py:285 | A round lowers the watermark exactly when everything from it on is gone and something older is left |
| Backlog.MarkFallsFromSevenToThree | workers/imap_worker.py:285 | An input where it does: message 7 is gone, 3 is left |
| Backlog.UncappedRoundDrains | workers/imap_worker.py:207-226 | With a watermark, one round takes everything above it and ends at the largest UID |
| Backlog.TwoRoundsDrain | workers/imap_worker.py:205-226 | Two quiet rounds take every message above the watermark they start from and leave it at the largest UID |
| Backlog.UndecodedHandsOverFirstTwenty | workers/imap_worker.py:271-277 | When JSONB comes back as text, any number of rounds takes the same first twenty messages |
| Backlog.UndecodedDrainsIffAtMostTwenty | workers/imap_worker.py:271-277 | Then rounds drain the inbox if and only if it has at most twenty messages |
| Ingestion.SearchLeavesNoGap | workers/imap_worker.py:207-212 | The UIDs a search returns leave no unsettled message at or below them out |
| Ingestion.HeadIsCovered | workers/imap_worker.py:220-226 | When a worker is about to save a UID, every present message at or below it is settled |
| Ingestion.ApplyKeepsCoverage | workers/imap_worker.py:205-226 | Every event, by any worker, keeps every saved watermark and every batch in flight free of gaps |
| Ingestion.RunKeepsCoverage | workers/imap_worker.py:205-288 | So does every run |
| Ingestion.WatermarkCoverage | workers/imap_worker.py:205-288 | After any run of arrivals, expunges, rounds, failures and crashes, every present message at or below a saved watermark has been through a completed `_process_message` |
| Ingestion.ApplyKeepsStored | workers/code_writer.py:72-106 | Every event keeps the codes valid and every notice, sent or owed, on a stored row of its own |
| Ingestion.RunKeepsStored | workers/code_writer.py:72-106 | So does every run, and rows keep ids, tenants, targets, keys and codes |
| Ingestion.StoredAtMostOnce | workers/code_writer.py:41-106 | After any run no two rows share a non-null key, and every notice ever sent names a stored row of its own on that row's tenant channel |
| Ingestion.StoredExactlyOnceAfterInsert | workers/code_writer.py:72-97 | Once an INSERT with a Message-ID and an existing source completes, its key is on exactly one row whatever happens later |
| Ingestion.DeletedSourcesAreForgotten | db/init/00_schema.sql:185 | Deleting mailboxes clears the source of exactly the rows read from them, and nothing else |
| Ingestion.StatementsAreDeliver | workers/code_writer.py:36-113 | Undisturbed, the statements of one call add up to Deliver on whatever branch |
| Ingestion.MessageIsDeliver | workers/imap_worker.py:220-226 | One worker's own statements, with nobody else moving, deliver one message and save its UID |
| Ingestion.RoundIsBacklog | workers/imap_worker.py:205-226 | One worker's own statements, with nobody else moving, make one round of `_fetch_backlog` |
| Drain.AdvanceTakes | workers/imap_worker.py:205-226 | A statement of a round that started from a saved watermark keeps every unsettled present message in the round, or ends the round with everything settled |
| Drain.StepOpens | workers/imap_worker.py:209-226 | A capped first round of an inbox nothing is expunged from ends with a saved watermark, unless the inbox is empty |
| Drain.RoundsSettle | workers/imap_worker.py:205-226 | For every run in which nothing new arrives for a worker and it neither crashes nor loses a fetch, everybody else moving freely: every message still present is settled after its first completed round from a saved watermark, and after its second without one when nothing is expunged |
| Drain.RoundsEndAtLargest | workers/imap_worker.py:220-226 | If it is the only worker of its mailbox and nothing is expunged there, then at rest after that round the watermark is the largest UID |
| Drain.TwoQuietRounds | workers/imap_worker.py:205-226 | From the state any run leaves behind, a resting worker left to itself goes through two completed rounds of `_fetch_backlog`, by its own statements only |
| StoredImage.StageStep | workers/code_writer.py:36-106 | Statement by statement, interleaved with everybody else, a call finds out what the rules say, and when it ends its message is answered |
| StoredImage.ApplyMirrors | workers/imap_worker.py:205-263 | Every event keeps every settled message that is still present answered, except those a swallowed exception lost before their INSERT |
| StoredImage.SwallowMirrors | workers/imap_worker.py:248-263 | A swallowed exception costs at most the message in hand, and nothing once the INSERT is through |
| StoredImage.WatermarkMeansStored | workers/imap_worker.py:205-288 | After any run with fixed rules, swallowed exceptions included, every present message at or below a saved watermark that yields a code has its row, exactly one when it has a Message-ID, unless a swallowed exception lost this very message |
| StoredImage.SwallowedMessageIsPassed | workers/imap_worker.py:221-226 | An input where it does: the writer raises, the watermark is saved, nothing is stored |
| StoredImage.SettledMeansStored | workers/imap_worker.py:205-263 | After any run with fixed rules every settled message that is still present and was not lost itself is answered |
| StoredImage.DrainedInboxIsStored | workers/imap_worker.py:205-226 | After any run with fixed rules, every completed round from a saved watermark, or two without one and without expunges, leaves every message of the inbox answered that was not lost itself, everybody else moving freely |
| StoredImage.EveryCodeHasItsMessage | workers/code_writer.py:41-91 | After any run with fixed rules, failures included, every stored row carries the target, Message-ID, tenant, platform and code that some message yields that was really in an inbox |
| StoredImage.EveryCodeHasItsTenant | workers/code_writer.py:41-49 | After any run with fixed rules every stored row for a mailbox of a real tenant is that tenant's, and any other is the tenant's of a mailbox its message was posted to |
| StoredImage.EveryNoticeReachesItsTenant | workers/code_writer.py:105-106 | And every notice ever sent for such a mailbox is on its tenant's channel |
| StoredImage.AnsweredByItsOwn | workers/code_writer.py:75-91 | With targets of real tenants and one content per Message-ID, the row under a message's key carries that message's own facts |
| StoredImage.SettledFactsAreStored | workers/imap_worker.py:205-263 | So every settled message that is still present and was not lost itself has its own tenant, platform and code stored |
| StoredImage.WatermarkFactsAreStored | workers/imap_worker.py:205-288 | And so has every present message at or below a saved watermark that was not lost itself |
| StoredImage.DrainedFactsAreStored | workers/imap_worker.py:205-226 | And so has every message of a drained inbox that was not lost itself |
| StoredImage.StoredCodesAreTheImage | workers/code_writer.py:18-113 | When nothing was expunged, no message that yields was lost and all inboxes are settled, the stored facts are exactly those the posted messages yield |
| StoredImage.StoredIffInserted | workers/code_writer.py:72-91 | Over every run with fixed rules, with all its failures, crashes and expunges: facts are stored if and only if a message that yields them got as far as its INSERT |
| LongPoll.EarliestAnswers | api/routes/api_v1.py:299-312 | The query returns an earliest-received unconsumed match of tenant, address, platform and since, or there is none |
| LongPoll.Poll.CodeWait | api/routes/api_v1.py:240-289 | The answer is right at the last query, made after the last wait; no content means the deadline has passed; no wait begins with the event clear while a heard notice is for a row the last query could not see; no wait is longer than five seconds, and waits are at most delivered notices plus timeout over five, rounded up |
| LongPoll.Poll.FindUnconsumedCode | api/routes/api_v1.py:292-312 | The answer is right for the table at one instant between suspension and resumption, and afterwards any news outstanding has the event set |
| LongPoll.Poll.AwaitEvent | api/routes/api_v1.py:275-279 | A wait ends with the event set or after the timeout |
| Consumers.ApplyKeepsInv | api/routes/api_v1.py:398-421 | Every statement of every caller keeps answers true and consumptions unchanged |
| Consumers.RunKeepsInv | api/routes/api_v1.py:398-421 | So does every run |
| Consumers.ConsumedAtMostOnce | api/routes/api_v1.py:398-406 | However API calls and admin clicks race, no two calls are told they consumed one code, and the time, key and note the winner wrote stay |
| Consumers.ClassificationIsSound | api/routes/api_v1.py:407-421 | 410 is always true; 404 is true unless the row was committed after the failed update |
| Consumers.FalseNotFoundIff | api/routes/api_v1.py:409-413 | 404 is false exactly when the row came after the failed update and is still unconsumed |
| Consumers.FalseNotFoundHappens | api/routes/api_v1.py:409-413 | A run of three statements in which it is false |
| Consumers.CodesEndpoint.CodeConsume | api/routes/api_v1.py:391-424 | The two statements, with anything happening in between, are the events Update and Classify, and the response tells their outcome |
| Consumers.CodesEndpoint.AdminCodeConsume | api/routes/admin.py:175-190 | Exactly the code with this id is consumed, if it is unconsumed and in the admin's scope; every other row and every answer given stays as it is |
| Mailboxes.DecideStatus | codecatch/mailbox_service.py:162-233 | Exactly when each status is given: direct, queued for headless consent, relying on groups, otherwise no path |
| Mailboxes.MailboxService.UpsertMailbox | codecatch/mailbox_service.py:43-149 | The statements of the transaction are Upsert: same tables, same response, every refusal before any write |
| Mailboxes.MailboxService.StorePassword | codecatch/mailbox_service.py:99-128 | Replaces the current password row unless it opens to the same password |
| Mailboxes.ReliesOnARealGroup | codecatch/mailbox_service.py:183-192 | A mailbox is told to rely on groups only when another mailbox of its tenant is an active group with working credentials |
| Mailboxes.ReliesOnGroupsIff | codecatch/mailbox_service.py:183-233 | An accepted request for a single mailbox is told to rely on groups if and only if another active group of the tenant has working credentials, the mode allows it, and no direct path of that mode comes first |
| Mailboxes.QueuedIff | codecatch/mailbox_service.py:197-233 | It is queued for a headless attempt if and only if it has a password and no basic authentication, and the mode asks for a direct path to Google or Microsoft, or is 'auto' and no other group serves |
| Mailboxes.UpsertWritesItsOwn | codecatch/mailbox_service.py:70-140 | An accepted request writes what it says to its own mailbox, keeps proxy, forwarding target, tokens, consent, attempts and age where it says nothing, and leaves everybody else's rows and passwords |
| Mailboxes.EmptyPasswordIsNone | codecatch/mailbox_service.py:100 | An empty password is no password |
| Mailboxes.RefusedIff | codecatch/mailbox_service.py:58-84 | A request is refused exactly for an address without '@', without a provider, for another tenant's mailbox, or for a provider that does not exist, and then writes nothing |
| PasswordHistory.KeepPasswordRefines | codecatch/mailbox_service.py:99-128 | Supplying a password keeps the history faithful to the last one supplied |
| PasswordHistory.ApplyKeepsFaithful | codecatch/mailbox_service.py:63-140 | Every request, deletion or damage keeps every history faithful |
| PasswordHistory.RunKeepsFaithful | codecatch/mailbox_service.py:63-140 | So does every run |
| PasswordHistory.PasswordHistoryRefinesLast | codecatch/mailbox_service.py:99-128 | After any run the one current row is the newest and opens to the last password accepted, neighbours differ when they open, and there is one row per reported change |
| PasswordHistory.HistoryGrows | db/init/00_schema.sql:175-176 | Without deletion rows are only appended, an invalidated row is never current again, and an intact ciphertext never changes |
| PasswordHistory.SettingsStay | codecatch/mailbox_service.py:89-91 | Over any run, proxy and forwarding target stay through all requests that do not speak of them |
| PasswordHistory.RemoveTakesItsOwn | db/init/00_schema.sql:161-176 | Deleting a mailbox takes its row and its password rows, and nobody else's |
| PasswordHistory.RefusedLeaveNoTrace | codecatch/mailbox_service.py:58-84 | Any run comes to the same without the requests that were refused |
| OAuthLifecycle.SaveKeepsLifecycle | codecatch/mailbox_service.py:63-140 | An upsert keeps the lifecycle invariants of all mailboxes |
| OAuthLifecycle.ApplyKeepsLifecycle | workers/oauth_worker.py:148-271 | So does every statement of every actor |
| OAuthLifecycle.LifecycleInvariant | workers/oauth_worker.py:148-271 | In every reachable state: OAuth-active implies a refresh token, direct-active a basic provider and a current password, a group never relies on groups, and no mailbox was claimed more than three times |
| OAuthLifecycle.FallThroughKeepsConsent | workers/oauth_worker.py:459-476 | Saving a fresh flow row disturbs no other flow |
| OAuthLifecycle.PublishKeepsConsent | workers/oauth_worker.py:477-487 | The mailbox update publishes a state whose flow row is still there |
| OAuthLifecycle.ActivateKeepsConsent | api/routes/oauth.py:156-168 | Activating through a flow leaves no mailbox waiting for that flow |
| OAuthLifecycle.DropFlowKeepsConsent | api/routes/oauth.py:169 | So deleting the flow row strands nobody |
| OAuthLifecycle.ConsentFlowInvariant | workers/oauth_worker.py:459-488 | In every reachable state of all interleaved actors, a mailbox awaiting manual consent carries a state whose flow row exists and is bound to it |
| OAuthLifecycle.RotationOverwritesIff | workers/oauth_refresh.py:131-144 | In any state, the UPDATE after a refresh replaces a token other than the one it refreshed if and only if the answer rotates and the stored token is by now neither the selected one nor the rotated one |
| OAuthLifecycle.TokenStays | workers/oauth_refresh.py:48-144 | Over every run in which nobody activates, rotates or deletes the mailbox after its selection, the stored token stays the selected one |
| OAuthLifecycle.UndisturbedRotationReplacesItsOwn | workers/oauth_refresh.py:48-144 | So then a refresh replaces only the token it refreshed |
| OAuthLifecycle.ConsentDuringRefreshIsOverwritten | workers/oauth_refresh.py:131-144 | Otherwise a newer token is lost: from every state with an active mailbox and an earlier flow still open, the callback stores its token during the refresh and the rotated older one replaces it |
| OAuthLifecycle.ActiveWithOpenFlow | workers/oauth_worker.py:137-271 | Such a state is reached: a first attempt falls through, the client asks again, the second attempt succeeds, and the first flow is still open |
| OAuthLifecycle.NewerConsentIsLost | workers/oauth_refresh.py:131-144 | A run from the start in which it happens |
| OAuthLifecycle.ApplySpendsSlots | workers/oauth_worker.py:148-165 | Each claim uses up one of the open attempts, and only a request opens new ones |
| OAuthLifecycle.ClaimsAreBounded | workers/oauth_worker.py:148-165 | Without new requests the claims of any run are at most the attempts still open, summed over the mailboxes |
| OAuthLifecycle.ClaimsExhaust | workers/oauth_worker.py:148-165 | Any run without new requests that makes as many claims as attempts were open leaves nothing claimable |
| OAuthLifecycle.TickSpendsOne | workers/oauth_worker.py:137-202 | Every tick that finds something claimable uses up an open attempt, whatever the attempt comes to, also when it raises after the claim |
| OAuthLifecycle.TicksDrain | workers/oauth_worker.py:137-202 | In any sequence of ticks, raising or not, nothing is claimable once there were as many ticks as attempts were open |
| OAuthLifecycle.TickIsRun | workers/oauth_worker.py:137-202 | A tick, on each of its branches, the raising one included, is a run of one actor's own statements in the step system |
| OAuthLifecycle.TickLeaves | workers/oauth_worker.py:148-271 | What a tick leaves of the claimed mailbox, branch by branch: no path and not claimable without a usable password; still queued after raising; active with the new token and no consent URL; or awaiting consent under a flow of its own; and every other mailbox as it was |
| OAuthLifecycle.UsablePasswordIff | workers/oauth_worker.py:171-183 | A password is usable exactly when the newest current row of the mailbox is undamaged |
| OAuthLifecycle.OnlyARequestQueues | workers/oauth_worker.py:152-160 | No event but a request for it queues a mailbox that is not queued, and it cannot be claimed |
| OAuthLifecycle.GivenUpIsNotClaimedAgain | workers/oauth_worker.py:490-498 | Over every run without a new request for it, a mailbox given up on has no path and is never claimed again |
| OAuthLifecycle.SavedTokens | workers/oauth_refresh.py:131-144 | Saving an answer leaves the new access token and expiry always, the rotated refresh token if one came and else the old one, and nothing else changed |
| OAuthLifecycle.ExchangeIsRun | api/routes/oauth.py:90-172 | So is a successful callback |
| OAuthLifecycle.OAuthWorker.ClaimNext | workers/oauth_worker.py:148-202 | Claims an oldest eligible row, gives up on one without a usable password, raises when the client secret does not decrypt, and returns nothing exactly when nothing is claimable |
| OAuthLifecycle.OAuthWorker.Tick | workers/oauth_worker.py:137-202 | One tick is a move of such a sequence: it ends in no path, active, awaiting manual consent, or still queued after raising, for the claimed mailbox, and in nothing exactly when none is claimable |
| OAuthLifecycle.OAuthWorker.DoExchange | api/routes/oauth.py:90-172 | Succeeds exactly for a known state with a refresh token in the answer; then that flow's mailbox is active with the token, awaits no consent, and the flow is gone; otherwise nothing changes |
| OAuthRefresh.OAuthRefresher.Tick | workers/oauth_refresh.py:45-69 | A tick refreshes the selected rows one by one, each with the refresh token read at selection, while other connections do anything during each request |
| OAuthRefresh.RefreshAllOnRow | workers/oauth_refresh.py:68-144 | As long as the others leave a row's tokens alone, they are written at most by the row's own answer, whatever happens to other rows |
| OAuthRefresh.SelectedIff | workers/oauth_refresh.py:46-67 | A selected row is OAuth-active, switched on, has a refresh token, and its access token is missing, of unknown expiry or within ten minutes of it; all such rows are selected when there are fewer than a hundred |
| OAuthRefresh.TickWrites | workers/oauth_refresh.py:71-144 | A tick writes to a row the others leave alone exactly the granted tokens, with an hour's life where the provider names none, and to unselected, undecryptable or refused rows nothing |
| OAuthRefresh.RotationNeverLoses | workers/oauth_refresh.py:131-144 | A tick leaves a refresh token where there was one, whatever the others do short of taking it away; if they leave it alone, it is the stored one or the non-empty one the provider sent for that row |
| OAuthRefresh.EveryDueRowIsSelected | workers/oauth_refresh.py:48-67 | With at most a hundred rows due, a row is selected exactly when it is due |
| OAuthRefresh.HealthyTickLeavesTenMinutes | workers/oauth_refresh.py:46-69 | After a tick with granted refreshes the stored token outlives the start of the tick by ten minutes |
| OAuthRefresh.StoredTokenIsNeverExpired | workers/oauth_refresh.py:45-69 | With such ticks ending within ten minutes of the start of the one before, the stored token is valid at every instant after the first |
| OAuthRefresh.FirstRefreshIsFresh | workers/oauth_refresh.py:125-144 | Within its first tick a row's token is valid from its refresh on |
| OAuthRefresh.LateTickFindsExpiredToken | workers/oauth_refresh.py:46-69 | For any tick later than that there are healthy ticks between which the token is found expired |
| WorkerPool.GroupsAndElderFirst | workers/imap_worker.py:93-114 | The take is within the limit, a single mailbox is taken only when every eligible group was, and older mailboxes of a kind come first |
| WorkerPool.ActiveMailboxesAreEligible | workers/imap_worker.py:93-109 | In every reachable state of the mailbox tables a mailbox is eligible exactly when it is switched on and direct-active, or OAuth-active with an access token at Google or Microsoft |
| WorkerPool.EligibleRowsAre | workers/imap_worker.py:103-109 | The eligible rows are exactly the table's rows that are switched on and have what their kind of authentication needs |
| WorkerPool.ConfigOf | workers/imap_worker.py:118-139 | A config has its row's own address, server, kind and the one secret that kind needs, the one whose ciphertext the row holds; there is none exactly when that does not decrypt |
| WorkerPool.ReconcileNames | workers/imap_worker.py:116-158 | Each worker a reconcile starts connects to the server of a row of the take with its address |
| WorkerPool.WorkersAreNamed | workers/imap_worker.py:130-158 | Over every history each worker in the dictionary logs in as the mailbox it is kept under |
| WorkerPool.WantedOf | workers/imap_worker.py:116-139 | The wanted configs are those of rows whose secret decrypts, one for every such row's address, never more than rows |
| WorkerPool.ImapWorkerManager.DecryptRows | workers/imap_worker.py:116-139 | The loop over the rows computes WantedOf |
| WorkerPool.ImapWorkerManager.StopUnwanted | workers/imap_worker.py:141-146 | Cancels and drops exactly the workers not wanted |
| WorkerPool.ImapWorkerManager.StartWanted | workers/imap_worker.py:148-158 | Starts exactly what is wanted and has no live worker, never exceeding the maximum on the way |
| WorkerPool.BothLoopsReconcile | workers/imap_worker.py:141-158 | The two loops together are a reconcile |
| WorkerPool.ImapWorkerManager.ReconcileWorkers | workers/imap_worker.py:91-158 | The dictionary's keys become the wanted addresses, wanted live workers are untouched with their old config, all others are started anew, and the size never exceeds the maximum even midway |
| WorkerPool.ImapWorkerManager.StopAll | workers/imap_worker.py:82-89 | Every live worker is cancelled, the dictionary is empty, and it never grew on the way |
| WorkerPool.ReconcileKeepsPoolOk | workers/imap_worker.py:141-158 | A reconcile leaves no live worker outside the dictionary and none twice |
| WorkerPool.HistoryKeepsPoolOk | workers/imap_worker.py:65-89 | Nor does any history of reconciles, deaths and shutdowns |
| WorkerPool.NoOrphansNoTwins | workers/imap_worker.py:141-158 | After any history every live worker is its address's entry, no address has two, the next reconcile leaves a wanted one untouched and cancels an unwanted one |
| Queries.LaterArgsDisturbNothing | api/routes/api_v1.py:344-359 | Values appended later change no condition |
| Queries.Appended | api/routes/api_v1.py:346-354 | A condition appended with its value narrows the selection by exactly that condition |
| Queries.ApiConditionsMeanFilter | api/routes/api_v1.py:344-370 | For every combination of filters each placeholder is in range and typed, and the conjunction selects exactly the rows the filter means, whatever is appended afterwards |
| Queries.BuildApiList | api/routes/api_v1.py:343-370 | The statements of the endpoint build those conditions and values, the limit last |
| Queries.UnconsumedConditionsMeanMatches | api/routes/api_v1.py:299-312 | The long poll's query selects exactly the matches the long poll waits for |
| Queries.BuildFindUnconsumed | api/routes/api_v1.py:299-312 | The statements build that query |
| Queries.AdminConditionsMeanFilter | api/routes/admin.py:107-140 | The admin's conditions select exactly the rows the filter means within the admin's scope, in the count and in the page query |
| Queries.BuildAdminList | api/routes/admin.py:107-140 | The statements build those conditions, and page size and offset take the two next placeholders |
| Queries.SpliceScopes | api/routes/admin.py:28-42 | Splicing the tenant filter into any well-bound query adds exactly the admin's scope |
| Queries.LikeIsContainment | api/routes/admin.py:113-115 | For a target without wildcards the LIKE is containment |
| Queries.TargetSearchIsSubstringIff | api/routes/admin.py:113-115 | The search is a substring search for all addresses if and only if the target has no `%`, `_` or backslash |
| Pages.FixedOrderPagesConcatenate | api/routes/admin.py:130-140 | Pages cut from one fixed order concatenate to exactly that order |
| Pages.HonestPagesAreComplete | api/routes/admin.py:130-140 | When no two pages meet inside a tie, pages answered in any correct order show every code exactly once |
| Pages.TieShowsARowTwice | api/routes/admin.py:136-137 | When two do, some correct answers show a row twice |
| Pages.PagesCompleteIffNoTieAcross | api/routes/admin.py:108-140 | All correct answers show every selected code exactly once if and only if no two pages meet inside a tie |
| Migrations.SortedIsOrdered | codecatch/migrations.py:36 | The run takes exactly the files of the directory, in text order of their names |
| Migrations.EqualWidthsCompareAsNumbers | codecatch/migrations.py:36-41 | Names whose versions have one width compare as the numbers do, whatever follows the version |
| Migrations.UnequalWidthsMisorder | codecatch/migrations.py:36-41 | For any two widths there are two files, one of each, of which the larger number comes first |
| Migrations.NumericOrderIffOneWidth | codecatch/migrations.py:36-41 | All directories whose versions have widths in a given set run in numeric order, as documented, if and only if the set has at most one width |
| Migrations.TextOrderIsNotNumeric | codecatch/migrations.py:36 | An input where they do not: version 10 comes before version 9 |
| Migrations.MigrationRunner.RunMigrations | codecatch/migrations.py:34-52 | One startup, dying after any number of transactions, is RunOnce over the recognised files |
| Migrations.ExecuteDistinct | codecatch/migrations.py:37-52 | With distinct versions a run commits as many pending files as it lives for, and finishes exactly when it lives for all |
| Migrations.CrashRecovery | codecatch/migrations.py:34-52 | Any runs cut short followed by a complete one apply each pending file exactly once in order, as one uninterrupted run does, and a further run changes nothing |
| Migrations.EveryFileAppliedIffDistinct | codecatch/migrations.py:34-52 | Some sequence of starts applies every pending file if and only if their versions are distinct |
| Migrations.SecondOfTwoNeverRuns | codecatch/migrations.py:42-43 | An input where they are not: of two files with version 001 the second never runs, whatever the starts |

## Left out

- Browser driving, token endpoints, IMAP and SMTP sockets: each is an answer that may come out in any way.
- MIME parsing, address parsing and the regular-expression engine: parameters of the model.
- Fernet, bcrypt and hashing: an abstract pair of encrypt and decrypt, with damage.
- Extractor.RunExtraction: the name of the haystack is lower-cased for ASCII letters only.
- Queries.ApiConditionsMeanFilter: addresses are lower-cased for ASCII letters only, here and in the admin's conditions.
- Migrations.MigrationRunner.RunMigrations: versions are runs of ASCII digits; the program's `\d` knows others.
- `_idle_loop` and `_run_one`: sessions, reconnects and the backoff sleep; any number of rounds at any time stands for them.
- Drain.RoundsSettle: a worker that crashes or loses a fetch starts its round again; how often that happens is not bounded.
- Ingestion.WatermarkCoverage: a fetch reads its messages at one instant; the program reads them one after another, so a message expunged meanwhile may still be processed.
- Deleting tenants, which would take their codes along; `Ingestion` models deleting and changing mailboxes and patterns.
- StoredImage.WatermarkMeansStored: mailboxes and patterns are held fixed, here and in its companions, because what a message yields changes when they are edited.
- Messages without a Message-ID are stored once per delivery, as in the program; no uniqueness is claimed for them.
- Consumers.FalseNotFoundIff: ids are positions in the table; the sequence's gaps and out-of-order commits are not modelled.
- LongPoll.Poll.CodeWait: the listener's own connection is not modelled; a notice is heard or lost, which covers any moment at which it really subscribes.
- OAuthRefresh.StoredTokenIsNeverExpired: claimed while at most a hundred rows are due at once; with more, `LIMIT 100` without an order may pass over the same row every time.
- A refresh answer without an access token, which raises and ends the tick in the program.
- Conditions are structured values with numbered placeholders, not SQL text; the fixed parts of the queries (columns, ordering, joins) are modelled by what they select.
- asyncio tasks are table entries that are live, done or cancelled; what a cancelled one still does before it ends is not modelled.
- Mailboxes.DecideStatus: the mode is one of four; any other text behaves as `auto` in the program.
- Addresses arrive at the upsert stripped and lower-cased.
- Bookkeeping columns (last errors, verification and update times, consent expiry) and logging.
- The forwarding probe and set-up, templates, sessions, bootstrap, metrics, audit, provider and key administration.
