# Verification of the wallet backend's core

This project models the parts of the backend where several parties act at once, or where a
short piece of code promises something about all its inputs, and proves those promises.

- **Protocols.** `OfferProtocol`, `IssuanceProtocol`, `HeldProtocol`, `JobWakeup`,
  `EngineOpening` and `TrustAnchors` each have a `World`, the `Action`s of its parties, a
  `Step` and a `Run` over any sequence of actions. Outcomes that the code does not decide
  (a redemption fails, a commit is lost after it was sent, a caller dies) are part of the
  action. Theorems hold in the state after every run.
- **Stores and loops.** What the source changes in place is a class or a loop here:
  `OfferStore.Store`, `IssuanceLedger.Store`, `HeldStore.Store`, `TrustAnchors.TrustStore`
  and the methods of the other modules. Each is proved against a function of its old state
  or its inputs, and the protocols step with those same functions.
- **Pure code.** Parsing, escaping, spelling and contrast are functions with lemmas.

Files: `AuditLog` (an append-only log read per target), `CredentialOffers` and
`OfferProtocol` (inbound offers), `IssuanceLedger` (issued credentials and the issuer's
status list), `HeldTrail` (audited status of held credentials), `HeldValidities` (the status
fold), `JobWakeup` (LISTEN/NOTIFY runner), `EngineOpening` (per-organization engines),
`TrustAnchors` (trust-anchor store), `EmploymentStatement` (statement pipeline), `MailText`
and `MailRender` (mail), `BrandContrast` (palette), `NameMatching`, `AuditPages`
(pagination), `Text` and `Wrappers` (shared helpers).

## Where the code and its promise part

Each of these is proved as an exact condition, with a concrete case on the failing side.

- In the runs whose redemptions store and report, store nothing, or end in one further way,
  no offer ever has two credentials in the engine exactly when that way leaves no credential
  unreported (`NoneTwiceIffAllReported`). Two ways do: the cancel branch at
  `backend/internal/eudiholder/engine_redeem.go:129-131`, which returns before the session
  ended, and a session that fails after it stored the batch of one of several configurations
  (`backend/internal/eudiholder/engine_redeem.go:332-336`). What callers are *told* succeeded
  is at most one per offer in every run (`RedeemedAtMostOnce`).
- A revocation never drifts from the issuer's list, in any interleaving, exactly when it
  did not read the row while it was still offered (`NoDriftIffNotReadOffered`).
- A held credential's trail alternates exactly when its changes, the last aside, were
  recorded in the order their transactions began (`RegularIffInBeginOrder`). The last status
  is found by `occurred_at`, whose default `now()` is the time the transaction began
  (`backend/internal/migrate/migrations/20260629112813_create_audit_events.sql:6`), and
  `backend/internal/audit/audit.go:407-410` does not set it. What holds in every run
  whatever the order is `TrailIsRecorded`.
- The HTML part equals the escaped text part for all values exactly when no placeholder has
  a newline inside its braces (`CommutesIffClean`); such a template still validates.
- The call-to-action label clears 4.5:1 exactly outside a narrow band of fill luminances
  (`LabelReadableIff`). Rounding stops the ink at channel 8, so the comment at
  `backend/internal/email/brand.go:225-230` does not hold for `#777777`; 4.47:1 always holds.
- The zero date stands for "no date", so a printed month that starts on 1 January of year 1
  makes its relation forget the months before it (`ZeroDateForgets`). A block's relation
  spans its months exactly when none starts on that date or one starts before it
  (`SpansIffClear`); a block is dropped exactly when its last month starts on that date and
  none before it (`DroppedIff`), and the yes/no answer is exact for every statement in these
  terms (`EmployedIffSomeMonth`); a page break changes no statement exactly under a condition
  on the months around it (`PageBreaksMatterIff`).

## Model

| member | source | states |
|---|---|---|
| OfferStore.Store.RecordOffer | backend/internal/attestation/offer_store.go:81-108 | queues an offer once per organization and source message; a re-delivery reads the queued row back, changing nothing |
| OfferStore.Store.ClaimOffer | backend/internal/attestation/offer_store.go:166-178 | the guarded update: pending becomes accepting and the row is returned, else not found and nothing changes |
| OfferStore.Store.ReleaseOffer | backend/internal/attestation/offer_store.go:185-196 | an accepting offer becomes pending, whoever claimed it |
| OfferStore.Store.AcceptOffer | backend/internal/attestation/offer_store.go:203-244 | settles an accepting offer, adds its held row, the offer's accepted event and the held credential's received event, all or nothing |
| OfferStore.Store.DeclineOffer | backend/internal/attestation/offer_store.go:249-268 | declines a pending offer with one audit event, else changes nothing |
| OfferStore.AcceptOffer | backend/internal/attestation/service.go:384-433 | one acceptance alone ends accepted with its held row, pending again after a failed redemption, or accepting when the last write is lost |
| OfferProtocol.RedeemedAtMostOnce | backend/internal/attestation/service.go:384-411 | in every run no offer has two redemptions reported successful |
| OfferProtocol.AcceptingIffOwned | backend/internal/attestation/offer_store.go:166-196 | accepting holds exactly when one caller owns the claim or ended owning it, and that caller is unique |
| OfferProtocol.GuardFindsOwnClaim | backend/internal/attestation/service.go:413-433 | the release and settling guards, which name no owner, always meet their own caller's claim |
| OfferProtocol.RedemptionsAreConserved | backend/internal/attestation/service.go:384-411 | successful redemptions equal the held rows, deleted ones included, plus those still carried by a caller |
| OfferProtocol.NothingRedeemedIsLost | backend/internal/attestation/offer_store.go:203-244 | each redeemed credential is in its accepted offer's held row, or its caller owns the accepting offer |
| OfferProtocol.AcceptedIffHeld | backend/internal/attestation/offer_store.go:203-244 | an offer is accepted exactly when a held row has its organization and source message, and that row is unique |
| OfferProtocol.HeldOnlyFromAccepted | backend/internal/attestation/offer_store.go:203-244 | every held row is some accepted offer's |
| OfferProtocol.DecisionIsFinal | backend/internal/attestation/offer_store.go:81-108 | no later delivery, accept, decline, release or deletion changes a decided offer or its audit trail |
| OfferProtocol.AuditTellsDecisions | backend/internal/attestation/offer_store.go:203-268 | each offer has one decision event once decided, none before, naming the decision |
| OfferProtocol.HeldTrailsStart | backend/internal/attestation/offer_store.go:235-242 | in every run a held credential's own trail is its receipt, then its deletion once deleted |
| OfferProtocol.StrandedForGood | backend/internal/attestation/service.go:413-433 | a claim whose owner ended stays accepting in every continuation |
| OfferProtocol.UnreportedRunStoresTwice | backend/internal/eudiholder/engine_redeem.go:129-154 | a redemption abandoned by its caller, or failed after storing a batch, lets a second accept store another credential for the offer |
| OfferProtocol.StoredTwiceOnlyLate | backend/internal/eudiholder/engine_redeem.go:129-154 | in every run an offer stored twice was stored by a session whose caller was not told |
| OfferProtocol.NoneTwiceIffAllReported | backend/internal/eudiholder/engine_redeem.go:129-154 | over all runs whose redemptions store and report, store nothing, or end in one further way, no offer is stored twice exactly when that way leaves no credential unreported |
| IssuanceLedger.Store.CreateOffered | backend/internal/attestation/issued_store.go:79-107 | a new offered row and its issued event |
| IssuanceLedger.Store.SetOffer | backend/internal/attestation/issued_store.go:111-119 | writes the correlation id, offer URI and code of the organization's row with no status guard |
| IssuanceLedger.Store.MarkFailed | backend/internal/attestation/issued_store.go:156-163 | marks the organization's offered row failed without an event |
| IssuanceLedger.Store.MarkClaimed | backend/internal/attestation/issued_store.go:168-187 | the organization's offered row becomes claimed with the credential uuid and one event, else nothing changes |
| IssuanceLedger.Store.Revoke | backend/internal/attestation/issued_store.go:193-216 | the organization's claimed row becomes revoked with one event, else the refusal says why |
| IssuanceLedger.Store.Cancel | backend/internal/attestation/issued_store.go:222-245 | the organization's offered row becomes cancelled with one event, else the refusal says why |
| IssuanceLedger.Revoke | backend/internal/attestation/service.go:301-335 | a revocation alone asks the issuer exactly for a flippable row, and an issuer error leaves the ledger untouched |
| IssuanceLedger.PollStatus | backend/internal/attestation/service.go:253-290 | a poll reconciles an offered row with an issuance id and nothing else |
| IssuanceProtocol.AuditReplaysToLedger | backend/internal/attestation/issued_store.go:79-245 | in every run each row's events are one path through the lifecycle, ending at its status |
| IssuanceProtocol.OnePollClaims | backend/internal/attestation/issued_store.go:168-187 | of any number of racing polls exactly one claims a row that was claimed, and no other is told that it did |
| IssuanceProtocol.UuidWrittenOnce | backend/internal/attestation/issued_store.go:168-187 | the credential uuid changes only on the offered to claimed step, from empty |
| IssuanceProtocol.RevokedThroughIssuer | backend/internal/attestation/service.go:301-328 | a revocation that read a claimed row with a uuid had the issuer's answer for that uuid before the row was revoked |
| IssuanceProtocol.NoDriftIffNotReadOffered | backend/internal/attestation/service.go:292-328 | revocations never drift exactly when they do not read the row offered |
| HeldStore.Latest | backend/internal/attestation/held_store.go:173-181 | picks the change that began last, or none when there is none |
| HeldStore.Store.SoftDeleteHeld | backend/internal/attestation/held_store.go:118-135 | deletes the organization's active row once, with one event |
| HeldStore.Store.RecordHeldStatusChange | backend/internal/attestation/held_store.go:159-194 | records a change exactly when the row is active and the status differs from the last on record |
| HeldStore.AuditHeldStatuses | backend/internal/attestation/service.go:722-768 | reports exactly the rows it audited; afterwards each active row it did not fail on agrees with the holder, and no other trail moved |
| HeldProtocol.OneHolderPerRow | backend/internal/attestation/held_store.go:159-172 | the row lock admits one transaction at a time |
| HeldProtocol.TrailIsRecorded | backend/internal/attestation/held_store.go:159-194 | in every run a trail is received, then changes each moving the status then last on record, then at most one deletion; one re-check was told of each change but for unanswered commits |
| HeldProtocol.RegularIffInBeginOrder | backend/internal/attestation/held_store.go:173-181 | in every run a row's trail alternates from revoked exactly when its changes, the last aside, were recorded in the order their transactions began |
| HeldProtocol.RecordedIsRegularIff | backend/internal/attestation/held_store.go:173-191 | any trail of changes that each move the last status on record alternates exactly when all but the last are in begin order |
| HeldProtocol.OvertakenIsIrregular | backend/internal/attestation/held_store.go:173-181 | the run in which a re-check that began earlier locks later, and a change is recorded twice |
| HeldValidities.GatherBatches | backend/internal/eudiholder/engine.go:348-372 | after the first pass each batch holds its latest check and what that check and any instance said |
| HeldValidities.Validities | backend/internal/eudiholder/engine.go:310-394 | a batch is revoked exactly when an instance at the latest check is, or, when none was checked, any instance is |
| HeldValidities.OrderDoesNotMatter | backend/internal/eudiholder/engine.go:348-393 | any permutation of the rows gives the same answers |
| HeldValidities.BatchRevokedTogether | backend/internal/eudiholder/engine.go:348-393 | all instances of a batch get the same verdict and check time |
| JobWakeup.NoWakeupIsLost | backend/internal/database/listen.go:32-125 | in every run a notification no job run started after is covered by the slot, a starting run, a queued message, or a connection that must still signal |
| JobWakeup.WaitingGetsServed | backend/internal/database/listen.go:32-125 | from any reachable state every schedule in which nothing fails starts a run for a waiting notification, at the latest with the seventh move of the party that can help |
| JobWakeup.SomeoneCanHelp | backend/internal/database/listen.go:32-125 | while a notification waits one party always has such a move |
| JobWakeup.RetriesBounded | backend/internal/database/listen.go:32-104 | the n-th failure in a row waits min(2^(n-1), 300) seconds; both delays stay within 1 s and 5 min |
| JobWakeup.BackoffDoubles | backend/internal/database/listen.go:32-104 | doubling under the bound at every step is a power of two cut at the bound |
| EngineOpening.OneOpenPerOrg | backend/internal/eudiholder/engine.go:648-689 | opens of one organization never overlap and at most one succeeds |
| EngineOpening.EveryCallerGetsTheEngine | backend/internal/eudiholder/engine.go:648-678 | all successful callers of an organization get the one cached engine |
| EngineOpening.EngineStays | backend/internal/eudiholder/engine.go:648-678 | a cached engine is never replaced |
| EngineOpening.NoDeadlock | backend/internal/eudiholder/engine.go:648-689 | behind every unfinished call some call can move, and the short lock's holder never waits and is never inside an open |
| TrustAnchors.TrustStore.Init | backend/internal/diploma/validator.go:157-177 | starts on loaded anchors, on the pinned fallback, or not at all |
| TrustAnchors.TrustStore.Current | backend/internal/diploma/validator.go:223-234 | answers with the anchors at hand, and starts a reload exactly when one is due and none is in flight |
| TrustAnchors.TrustStore.FinishReload | backend/internal/diploma/validator.go:238-254 | a failed reload keeps the anchors; a successful one replaces them and ends the fallback |
| TrustAnchors.TrustStore.AnchorsFor | backend/internal/diploma/validator.go:293-299 | refuses an issuer without pinned roots exactly on pinned anchors |
| TrustAnchors.AnchorsNeverLost | backend/internal/diploma/validator.go:157-254 | a started store keeps anchors through any failures with at most one reload in flight |
| TrustAnchors.AttemptsSpaced | backend/internal/diploma/validator.go:223-234 | the i-th and j-th attempts are at least (j - i) quarters of an hour apart |
| TrustAnchors.PinnedUntilFirstLoad | backend/internal/diploma/validator.go:157-254 | with the EU lists, pinned roots are in use exactly until the first successful load |
| TrustAnchors.FallbackNeverReturns | backend/internal/diploma/validator.go:238-254 | after one load the fallback stays away in every continuation |
| TrustAnchors.RefusedOnlyOnPinned | backend/internal/diploma/validator.go:293-299 | in every run an issuer is refused exactly when it has no pinned roots and the anchors are the pinned ones |
| TrustAnchors.FreshAnchorsAreKept | backend/internal/diploma/validator.go:223-234 | no reload starts within a day of a load |
| EmploymentStatement.Classify | backend/internal/employment/benefits.go:45-60 | the loop over the benefit names and the rewrites in place give the classified key and keep the dates |
| EmploymentStatement.AddPeriod | backend/internal/employment/parser.go:247-270 | widens a relation to a month line, keeps it for any other line, and rejects an impossible date |
| EmploymentStatement.ReadLine | backend/internal/employment/parser.go:217-241 | one turn of the reading loop keeps the relations those of the blocks scanned so far |
| EmploymentStatement.ParseRelations | backend/internal/employment/parser.go:215-244 | the reading loop answers with the merged relations of the printed blocks up to the disclaimer |
| EmploymentStatement.MergeRelations | backend/internal/employment/parser.go:275-305 | the loop with its index map merges as the map-free fold does |
| EmploymentStatement.SpansIffClear | backend/internal/employment/parser.go:260-268 | a block's relation spans its months, and is kept, exactly when it has months and none starts on the zero date or one starts before it |
| EmploymentStatement.DroppedIff | backend/internal/employment/parser.go:275-282 | a block is dropped exactly when it has no months, or its last starts on the zero date and none before it |
| EmploymentStatement.OneRelationPerKey | backend/internal/employment/parser.go:247-305 | where no block's span depends on the zero date: one relation per key in first-seen order, from the first of all the key's months to the last, worked until the last with hours |
| EmploymentStatement.ZeroDateForgets | backend/internal/employment/parser.go:260-262 | the printed lines whose relation starts after its first month, because a month between starts on the zero date |
| EmploymentStatement.PageBreaksDoNotMatter | backend/internal/employment/parser.go:215-305 | cutting a block at any line under its labels and repeating them changes nothing where the cut keeps the months, whatever is printed around it |
| EmploymentStatement.PageBreaksMatterIff | backend/internal/employment/parser.go:215-305 | such a cut changes no statement exactly when it keeps the months, and always where the zero date does not come into them |
| EmploymentStatement.Current | backend/internal/employment/statement.go:42-57 | the loop keeps the relations that still run, in order, with sick pay via the employer as employment and unworked employment as other income |
| EmploymentStatement.EmployedIffSomeMonth | backend/internal/employment/statement.go:42-68 | for every statement: employed exactly when some month line ends at or after the cutoff in a block that is not dropped, of sick pay via the employer, or of employment with hours that month |
| MailText.MatchFinds | backend/internal/email/render.go:27 | a text that starts with a placeholder of the pattern is matched with that name and length and no other |
| MailText.MatchIsPlaceholder | backend/internal/email/render.go:27 | what the scan matches is a placeholder of the pattern |
| MailText.ScanPrints | backend/internal/email/render.go:505-520 | cutting a text into characters and placeholders loses and moves nothing |
| MailText.EscapeRoundTrip | backend/internal/email/render.go:522-524 | an escaped text can be read back |
| MailText.HTMLShows | backend/internal/email/render.go:515-520 | the HTML part is the escaped form of the text with values put in once and never rescanned, newline placeholders left literal |
| MailText.CommutesIffClean | backend/internal/email/render.go:505-524 | substitution commutes with escaping for all values exactly when no placeholder has a newline inside its braces |
| MailText.NewlinePlaceholderKept | backend/internal/email/render.go:203-213 | such a placeholder validates, resolves in the text part, and stands literally in the HTML part |
| MailRender.ResolveContent | backend/internal/email/render.go:433-461 | the loop over the layout gives the resolved blocks that are not dropped |
| MailRender.LayoutIsKept | backend/internal/email/render.go:433-461 | resolving keeps the layout's order and drops exactly the text blocks whose prose comes to nothing |
| MailRender.DroppedForItsVariables | backend/internal/email/render.go:485-503 | a valid text block disappears only for its placeholders |
| MailRender.ResolvedLinkIsChecked | backend/internal/email/render.go:178-198 | the link of a valid block is its literal or one declared URL variable's value, and is checked |
| MailRender.CheckVariables | backend/internal/email/render.go:225-236 | the loop finds the first variable that is missing or holds a bad link |
| MailRender.EmbedImages | backend/internal/email/render.go:250-270 | the loop checks each link and numbers the QR blocks, or names the first failure |
| MailRender.QrImagesMatch | backend/internal/email/render.go:261-269 | each QR block refers to the image of its own link |
| MailRender.Render | backend/internal/email/render.go:221-287 | rendering answers in the source's order of checks |
| MailRender.RendersIffWellFormed | backend/internal/email/render.go:221-287 | rendering succeeds exactly for a valid template, well-typed and declared variables and encodable QR links; the second URL check never fails |
| BrandContrast.LinearGrows | backend/internal/email/brand.go:201-210 | linearisation is monotone across its threshold |
| BrandContrast.ReachesIff | backend/internal/email/brand.go:214-223 | the contrast ratio reaches a value exactly when the lighter luminance is that many times the darker |
| BrandContrast.AdjustToContrast | backend/internal/email/brand.go:243-252 | the bounded loop gives the adjusted colour |
| BrandContrast.AdjustedDarkens | backend/internal/email/brand.go:243-252 | the adjusted colour is the first darkening within the cap that clears, or the last one |
| BrandContrast.CapIsDark | backend/internal/email/brand.go:254-261 | 24 steps take any channel to at most 58 |
| BrandContrast.InkStalls | backend/internal/email/brand.go:254-261 | rounding stops ink at channel 8 |
| BrandContrast.ReadableOnCard | backend/internal/email/brand.go:243-252 | any colour ends readable on any card within the cap of 24 steps, or a larger one |
| BrandContrast.CardStaysLight | backend/internal/email/brand.go:139-143 | every channel of a tinted card is at least 235 |
| BrandContrast.LabelReadableIff | backend/internal/email/brand.go:225-237 | the label clears 4.5:1 exactly for fills of luminance at most 11/60 or at least 4.5 times the stalled ink's |
| BrandContrast.LabelFloor | backend/internal/email/brand.go:225-237 | on every fill the label has at least 4.47:1 |
| BrandContrast.GreyLabelFallsShort | backend/internal/email/brand.go:225-237 | the label on #777777 does not clear 4.5:1 |
| BrandContrast.HexRoundTrip | backend/internal/email/brand.go:182-198 | colours pass between steps as hex text without loss |
| BrandContrast.SeedPrints | backend/internal/email/brand.go:166-198 | a seed that is kept is printed in lower case |
| BrandContrast.ResolveBrand | backend/internal/email/brand.go:135-164 | every palette's text, muted text and links clear 4.5:1 on the card and its label 4.47:1 on the fill; the font family is the seed's if it is safe |
| NameMatching.SameNumberOfWords | backend/internal/diploma/match.go:278-289 | both spellings of every name have as many words |
| NameMatching.PrintedTokens | backend/internal/diploma/match.go:131-139 | word by word the printed tokens are the whole name's, and the starts are those of its words |
| NameMatching.KeysTellApart | backend/internal/diploma/match.go:291-297 | the key used to skip repeated tails never confuses two of them |
| NameMatching.SurnameTails | backend/internal/diploma/match.go:190-209 | the tails are exactly the rotations of prefix and surname |
| NameMatching.TailsAreAsLong | backend/internal/diploma/match.go:190-235 | all tails have as many words, so it does not matter which is found |
| NameMatching.EndsInSurnamePrefix | backend/internal/diploma/match.go:145-151 | the loop answers whether the printed given names go on past the disclosed ones and end in a prefix word |
| NameMatching.MatchFullName | backend/internal/diploma/match.go:45-77 | matched exactly when the dates agree, the surname ends the printed name and the given names agree |
| NameMatching.SurnameFoundIffSplit | backend/internal/diploma/match.go:45-68 | the surname is found exactly when the printed name splits at a word start into given names and a rotation of the disclosed surname |
| NameMatching.HoldersMatchThemselves | backend/internal/diploma/match.go:37-77 | a holder's own name, prefix before or after, matches exactly when there is a given name and a surname |
| NameMatching.MatchInitials | backend/internal/diploma/match.go:87-127 | matched exactly when the dates agree, the printed surname or a part of it joined by one hyphen is a rotation of the disclosed one, and each initial starts the given name in its place |
| NameMatching.MarriedNamesMatch | backend/internal/diploma/match.go:79-104 | a holder's own surname matches when a partner's name is joined to it with a hyphen, before or after |
| AuditPages.ReadPage | backend/internal/audit/read.go:166-243 | a page is the newest events past the cursor, with a next cursor exactly when more follow |
| AuditPages.PagesListTheLog | backend/internal/audit/read.go:166-243 | following the cursors lists every event once, in order, and ends |
| AuditPages.GrowingLogIsRead | backend/internal/audit/read.go:136-141 | while events are being added, reading to the last page lists newest first, nothing twice, and misses no event there at the start |

## Left out

- SQL text, pgx, gorm and the schema: a guarded update or a transaction is one atomic step on rows.
- HTTP handlers, routing, configuration, boot wiring, JSON codecs and the frontend: plumbing.
- The issuer, the wallet engine, SMTP and PDF and signature validation: their outcomes are part of the actions.
- `backend/internal/eudiholder/engine_redeem.go:347-381`, picking the stored batch for a redemption: only which credential is indexed depends on it.
- A session that stores several batches and reports success counts as one credential stored for its offer.
- `Engine.Close` racing an open, and what an open does: an open is one step that ends with an engine or an error.
- Context cancellation of the listener's loops: the runs model them while they are not stopped.
- Expiry of issued rows and held credentials from other sources: no protocol depends on them.
- HeldProtocol.RegularIffInBeginOrder: two transactions that begin at one instant are not told apart by their random ids, because begin times are taken as distinct.
- The header of a statement (holder, dates, footers, form code): easy line matching without state.
- The sentences in `Result.Reasons`, and the parsing of dates of birth: a date is the day it parses to, if it does.
- `SameName`: it compares the same tokens without a surname or a date.
- NameMatching.SameNumberOfWords: takes names already in NFC and the character tables as a parameter that satisfies `Lawful`, because Unicode's tables are not part of this model.
- BrandContrast.LinearAt: takes the real value of the 2.4th power, fixed by its fifth power, because rounding of floating point is not part of this model; the rounding of channels is.
- The mail shell's markup, the preheader's fallback, the subject's white space, logos and preview inlining: they add no decision to a block.
- MailRender.Render: takes the URL parser, the QR encoder and the variables of the mail kind as parameters, and which error text is reported for an invalid template is not modelled.
- The text form of the pagination cursor: a cursor is the pair it encodes.
- The filters of the audit listings and the joined actor columns: a log is the events that pass the filter.
