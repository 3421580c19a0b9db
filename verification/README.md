# Billing server: models and proofs

This project models the money, key, cache, dashboard and gateway logic of the
billing server and proves what it keeps, over every input and every run.

* `Amounts`, `Ledger`, `OrderViews`, `OrderRepository`: accounting entries are
  folded into the view of an order, by the loop that rebuilds stored views.
  Amounts are exact reals counted in cents; rounding is to the nearest cent, a
  tie to the even one.
* `RoyaltyMarking`: marking the orders of a report and rebuilding their views in
  batches.
* `RoyaltySummary`, `RoyaltyReports`: views are matched, unwound into one row an
  item, grouped and totalled, exactly and rounded. `RoyaltyReports` carries the
  laws from the store of orders and entries to the report.
* `Keys`: product keys as a store of atomic steps that buyers and the daemon take
  in any order.
* `TariffLookup`, `TariffAnswers`, `CacheKeys`, `TariffKeys`, `TariffCache`,
  `TariffReplacing`, `TariffRepository`: four tariff repositories that share one
  query and one way of caching it under printed keys. `TariffCharges`: the tariff
  the services then charge by. `ObjectIds`: ids are read in
  either case and written in one. `TariffStaleReads`: runs that leave a cached
  tariff wrong.
* `CountryCache`, `Payouts`: two more collections behind caches. `CacheVersions`:
  the versioned store under all of them and its cleaning.
* `Calendar`, `Periods`, `CustomersChart`: the dashboard's named periods, its
  report processors and the daily chart.
* `CardPay`, `CardPayTokens`, `Callbacks`: the gateway's callbacks and tokens, and
  which callbacks reach the stored orders and refunds.

Code that changes objects step by step is a class whose methods are proved
against pure step functions; the laws are lemmas about those functions and about
sequences of steps. Database and cache calls are steps on maps and sequences.
Clocks, hashes, the readers of outside formats and the answers of servers are
parameters; so are constants of packages that are not part of this model, such as
the statuses callbacks may carry.

Where the code and what is said of it part:

* The comment at `internal/repository/order.go:630-633` holds that the summary of
  a one-sided ledger is always safe. `OrderViews.RefundSummary` gives the exact
  gap: twice the exchange delta.
* `cleanVersion` means to report a failed deletion and returns the error of the
  scan instead (`internal/database/cache.go:124-128`): see
  `CacheVersions.KeysLeftBehind`.
* A tariff write drops the cached answers of its own country and of the generic
  query only, though a generic tariff answers for countries too
  (`internal/repository/payment_channel_cost_system.go:430-435`), and names are
  matched without regard to case but cached as spelled: see
  `TariffCache.GenericWriteIsUnsafe` and `TariffCache.BlindSpot`. Keys are printed
  without escaping, so a colon in a field can make two queries share one: see
  `TariffStaleReads.ColonsMisleadFind`.
* Ids are read in either case but cached as the caller spells them, and a write
  drops only what is cached under its own spelling
  (`internal/repository/payment_channel_cost_system.go:162-211`): a tariff deleted
  through an id in upper case is still read by it. See `TariffCache.WriteKeepsIds`
  and `TariffStaleReads.UpperCaseIdOutlivesDeletion`.
* Replacing a merchant's tariffs deletes them without telling the cache, and if
  the insertion then fails the cache is told nothing at all: see
  `TariffReplacing.ReplacingKeepsQueries`.
* Keys are cancelled and finished by id alone, so the daemon can take back a key
  redeemed after its look: see `Keys.DaemonRace`.
* A skipped payment callback leaves the order object rejected, a skipped refund
  callback restores the refund; only the first is kept out of the store by its
  caller. A completed refund can be turned back by a later callback although its
  refund order stays: see `CardPay.CompletionIsNotKept` and
  `Callbacks.OrderOutlivesCompletion`.
* `setToken` keeps its lock when the body is malformed: see
  `CardPayTokens.LossIsForGood`.

## Model

| member | source | states |
|---|---|---|
| `Amounts.RoundIsNearestEven` | internal/helper/float.go:8-16 | The rounded amount is a whole cent with none nearer to the exact value, and of two equally near ones the even one: this fixes the result for every amount. |
| `Amounts.RoundNegation` | internal/helper/float.go:8-16 | Rounding commutes with the sign, so a refund rounds like the payment it mirrors. |
| `Ledger.LatestIsLast` | internal/repository/order.go:283-286 | What is read for a type is the entry with no other of its type behind it, whatever the list. |
| `Ledger.LatestIsBlank` | internal/repository/order.go:253-286 | A type nothing was booked under reads as an empty entry. |
| `Ledger.LatestIgnoresOrder` | internal/repository/order.go:283-286 | With one entry per type the order of the entries is irrelevant. |
| `Ledger.RepeatedKindMakesOrderMatter` | internal/repository/order.go:283-286 | With two different entries of a type it is not: each order shows the later one. |
| `OrderViews.PaymentValueConserved` | internal/repository/order.go:343-457 | For every ledger the gross payment revenue is, exactly, the sum of merchant net revenue, platform profit, merchant tax total, central-bank tax, exchange tax and the two self costs. |
| `OrderViews.RoundedPaymentSplit` | internal/repository/order.go:433-447 | On the rounded figures net revenue is gross less tax less fees: exactly when the entries were booked in whole cents, and within two cents whatever they hold. |
| `OrderViews.SplitOfRoundedSums` | internal/helper/float.go:8-16 | Rounding a sum and rounding its three parts differ by at most two cents, and not at all on whole cents. |
| `OrderViews.PlatformProfitSplit` | internal/repository/order.go:375-457 | The profit is the fee margin plus the exchange margin less the central bank tax, and each tariff is its self cost plus the margins on it. |
| `OrderViews.RefundChargeSplit` | internal/repository/order.go:458-567 | What a refund takes back is refund plus fees less tax plus twice the exchange delta, because the delta is added both to the tax total and to the charge. |
| `OrderViews.PaymentSummary` | internal/repository/order.go:630-661 | A payment’s report summary shows the payment side and its currencies alone; its revenue is gross less VAT less fees exactly when the fees are not negative. |
| `OrderViews.RefundSummary` | internal/repository/order.go:630-661 | A refund’s summary shows the refund side with its sign turned (fees excepted) and its currencies alone; its revenue misses gross less VAT less fees by minus twice the exchange delta, so the two agree exactly when the delta vanishes or negative fees cancel it. |
| `OrderViews.FiguresKeepCurrencies` | internal/repository/order.go:308-572 | If the entries of an order keep to three currencies, all 53 figures do: each in the merchant’s, the payer’s or the tax office’s, as its kind asks. |
| `OrderViews.FiguresShowTheirAmount` | internal/repository/order.go:308-572 | If the entries hold their amounts exactly, every figure shows its amount rounded to the nearest cent. |
| `OrderViews.PaymentSideIsApart` | internal/repository/order.go:308-457 | The figures of the payment side do not depend on any refund entry. |
| `OrderViews.RefundSideIsApart` | internal/repository/order.go:458-572 | The figures of the refund side depend on refund entries alone. |
| `OrderViews.DomesticFiguresAgree` | internal/repository/order.go:308-572 | Where an order is kept in one currency, the local and the original figures say the same as the common ones. |
| `OrderViews.FiguresAddUp` | internal/repository/order.go:308-572 | Totals are the sum of their parts on both sides, and every margin is what a tariff leaves of its cost. |
| `OrderViews.PaymentViewCurrency` | internal/repository/order.go:620-624 | A purchase without refund entries is paid out in the currency its gross revenue was booked in, which is that of the summary’s revenue. |
| `OrderViews.RefundViewCurrency` | internal/repository/order.go:620-624 | Any other order without payment entries is paid out in the currency of what the merchant pays back, again that of the summary’s revenue. |
| `OrderViews.ReportedStatus` | internal/repository/order.go:663-665 | The summary’s status differs from the order’s exactly for a refunded or charged back purchase, and is then processed. |
| `OrderViews.ChargeBeforeVat` | internal/repository/order.go:582-598 | The charge before VAT is the charge less the original tax of the side booked, rounded once. |
| `OrderViews.ViewsKeepOrders` | internal/repository/order.go:599-628 | Tax rate, report id, locale and terminal of a view are the order’s, a missing locale or terminal showing as empty. |
| `OrderRepository.Repository.UpdateOrderView` | internal/repository/order.go:217-690 | Afterwards each id worked off has the view of its order and its own ledger entries and all other views are as they were; the batch stops at the first malformed id, missing order or order without tax, and says which. |
| `OrderRepository.BuildView` | internal/repository/order.go:217-661 | The view is the one the latest entries give, and its metadata values are those of the order, each as often as some key has it. |
| `OrderRepository.CurrentEntries` | internal/repository/order.go:253-286 | The map built by overwriting holds, for every type read, the latest entry of the list. |
| `OrderRepository.MetadataValues` | internal/repository/order.go:608-614 | Collecting the values of a map gives them as a multiset, in no particular order. |
| `OrderRepository.RebuildingAgainChangesNothing` | internal/repository/order.go:217-690 | A second rebuilding of any of the same views changes nothing but the order of metadata values. |
| `OrderRepository.EntryOrderDoesNotShow` | internal/repository/order.go:221-284 | If an order has one entry per type, reordering the whole ledger leaves its view right. |
| `OrderRepository.MarkedViewsLag` | internal/repository/order.go:692-712 | Until its views are rebuilt, marking an order leaves its stored view up to date exactly when it is not listed or bore that report id already. |
| `RoyaltyMarking.MarkingThenRebuilding` | internal/service/royalty_report.go:1078-1096 | From views that are up to date, marking orders and rebuilding views that include theirs ends with every view up to date, the report id in every marked order’s view, and every view not rebuilt as it was. |
| `RoyaltyMarking.UpdateOrderViews` | internal/service/order_view.go:12-47 | Splitting the ids into batches of any size changes nothing: the views, the error and the id it stops at are those of working the ids off one after the other; no ids stand for all sources of entries. |
| `RoyaltyMarking.MarkOrdersIncluded` | internal/service/royalty_report.go:1078-1096 | Marks exactly the listed orders and rebuilds their views; it succeeds if they exist and have tax, and then, from an up-to-date repository, every view is up to date, every listed one bears the report id and every other is as it was. |
| `RoyaltySummary.ItemKeys` | internal/repository/order_view.go:205-226 | Every product and region that occurs among the rows has exactly one item. |
| `RoyaltySummary.ItemIsDerived` | internal/repository/order_view.go:205-274 | An item’s figures are derived from the rows of its own product and region alone, in the rounded summary too. |
| `RoyaltySummary.SummariesAddUp` | internal/repository/order_view.go:205-272 | Total and items, field by field: the number of rows, of purchases and of the rest, and the sums over the rows of each figure of their views, exact in one summary and rounded row by row in the other. |
| `RoyaltySummary.FinalRoundingIsIdle` | internal/repository/order_view.go:243-266 | Rounding a finished line of whole-cent sums changes nothing, because the rows were rounded before grouping. |
| `RoyaltySummary.ItemsAddUpToTotal` | internal/repository/order_view.go:205-274 | The items add up to the total in every summed and every derived field, exact or rounded. |
| `RoyaltySummary.TotalIsWeighted` | internal/repository/order_view.go:317-371 | The total counts the amounts of an order once per item, and once if it has none. |
| `RoyaltySummary.PayoutBalances` | internal/repository/order_view.go:213-241 | In the exact summary payout is gross less VAT less fees less twice the sum of the exchange deltas of the rows, in the total and in every item. |
| `RoyaltySummary.SummariesDrift` | internal/repository/order_view.go:1164-1230 | The rounded and the exact summary list the same groups, and differ by at most a cent a row in gross, fees and VAT and three cents a row in payout, in every item and in the total. |
| `RoyaltyReports.ReportBalances` | internal/repository/order_view.go:276-441 | From the store to the report: with views up to date, the payout equation holds for any ledgers and any window, with the deltas read from the ledger entries of the matched orders. |
| `RoyaltyReports.ReportsDrift` | internal/repository/order_view.go:1115-1300 | From the store to the two reports: the drift bounds hold when each entry is booked in whole cents within half a cent and each order’s entries are all of a payment or all of a refund. |
| `RoyaltyReports.ReportConserves` | internal/repository/order_view.go:276-441 | For any views and window the items add up to the total and the total is the item-weighted sum over the matched orders. |
| `RoyaltyReports.ReportAddsUpEntries` | internal/repository/order_view.go:205-375 | Over up-to-date views, gross, fees, VAT and payout of the exact report are the sums of the ledger entries of the listed orders, in the total and in every item. |
| `RoyaltyReports.ListedRows` | internal/repository/order_view.go:293-365 | The rows are those of the merchant’s production views closed within the window, processed, refunded or charged back, and paid out in the currency: one an item, or one under the English project name. |
| `RoyaltyReports.ReportItems` | internal/repository/order_view.go:205-375 | One item for each product and country among the rows, in the report’s currency, and the order id of every row. |
| `RoyaltyReports.OrdersReported` | internal/repository/order_view.go:293-307 | An order with a one-sided ledger is listed exactly in windows of its merchant and time, in the currency its revenue or refund was booked in. |
| `RoyaltyReports.OrderRows` | internal/repository/order_view.go:313-362 | A listed order has a row for each of its items, or one for its project. |
| `RoyaltyReports.OrderIsNamed` | internal/repository/order_view.go:366-375 | For each of its rows the report has an item of that product and of its country, and names the order. |
| `Keys.KeysConserved` | internal/repository/key.go:87-293 | In every state reachable by any interleaving, free keys plus keys held by an order are the keys inserted, for each product and platform, and a deadline is only found on a held key. |
| `Keys.HeldUntilCancelled` | internal/repository/key.go:115-177 | A key stays with its order through a run exactly if the run does not cancel it, and while it stays no reservation is given it. |
| `Keys.RedeemedForGood` | internal/repository/key.go:115-224 | In every run in which only reserved keys are cancelled and only held keys finished, a redeemed key keeps its order for ever and is never issued again. |
| `Keys.RedeemedOnlyByFinish` | internal/repository/key.go:167-224 | A key is redeemed after a run exactly if it was before or some step finished it: cancelling does not clear the time of redeeming. |
| `Keys.DaemonRace` | internal/service/key.go:340-359 | If the daemon finds an expired key and cancels it after any steps of others, the cancelled key is one already redeemed exactly if one of those steps finished it; if none touched it, nothing is lost. |
| `Keys.LostRedeemIsReissued` | internal/repository/key.go:154-177 | A redeemed key that is cancelled goes to the next buyer with its time of redeeming still set; the guard forbids this exactly when the key is not reserved. |
| `Keys.RedeemCanBeLost` | internal/service/key.go:340-359 | A whole run from the empty store: a key is reserved, found expired, redeemed, cancelled and reserved again, and ends with the second buyer while the first one’s time of redeeming is set. |
| `Keys.SweepIsSafe` | internal/service/key.go:340-359 | A sweep nobody interrupts leaves no expired reservation, frees those that had expired, and touches nothing else, in particular no sold key. |
| `Keys.ReservationLasts` | internal/repository/key.go:115-177 | A key reserved with a deadline, after any steps that do not cancel it, keeps its order through a sweep exactly if it was redeemed or the clock is not past the deadline; else it is free. |
| `Keys.KeyRepository.Insert` | internal/repository/key.go:27-45 | Adds a free key under a new id, and fails without effect otherwise. |
| `Keys.KeyRepository.ReserveKey` | internal/repository/key.go:87-152 | Fails without effect exactly if no key of the product and platform is free; else one free key, and no other, gets the order and the deadline. |
| `Keys.KeyRepository.CancelById` | internal/repository/key.go:154-200 | Clears order and deadline of a stored key whatever its state, and changes nothing else. |
| `Keys.KeyRepository.FinishRedeemById` | internal/repository/key.go:202-247 | Sets the time of redeeming and clears the deadline of a stored key whatever its state, and changes nothing else. |
| `Keys.KeyRepository.CountKeysByProductPlatform` | internal/repository/key.go:249-281 | The count and the keys held by orders are together all keys of the product and platform. |
| `Keys.KeyRepository.FindUnfinished` | internal/repository/key.go:283-333 | Finds exactly the keys whose deadline is set and past, each once. |
| `Keys.KeyRepository.KeyDaemonProcess` | internal/service/key.go:340-359 | One turn of the daemon returns exactly the expired keys to the stock and counts them. |
| `TariffLookup.SetsAreSpecificThenGeneric` | internal/repository/payment_channel_cost_merchant.go:238-320 | Grouping and sorting down come to: the matches for exactly the requested country first, if any, then the generic ones, if any, each in collection order. |
| `TariffLookup.SetsPartitionMatches` | internal/repository/money_back_cost_merchant.go:323-407 | The sets partition the matching tariffs: every match is in a set of its country, nothing else is, and no country has two sets. |
| `TariffLookup.NamesIgnoreCase` | internal/repository/payment_channel_cost_merchant.go:240 | Names match that are letter by letter the same or the same letter in the other case. |
| `TariffLookup.SingleIsSpecificElseGeneric` | internal/repository/payment_channel_cost_system.go:223-317 | The single form answers with a tariff for exactly the country if there is one, else a generic one, and reports no documents exactly when there is neither. |
| `TariffLookup.ChooseTariff` | internal/service/payment_channel_cost_merchant.go:255-295 | Takes from the first set with an eligible tariff one with the greatest threshold the amount reaches, or says which of the two errors applies. |
| `TariffLookup.ChosenTariff` | internal/service/money_back_cost_system.go:172-214 | Query and choice together: the best reached tariff of the country; if the amount reaches none of those, the best reached generic one. |
| `TariffKeys.QueryKeyInjective` | internal/repository/money_back_cost_merchant.go:305 | In each of the four collections, a query whose fields hold no colon shares its cache key with no query at all, colons or not, that differs in a field the collection is asked by. |
| `TariffKeys.KindsApart` | internal/repository/money_back_cost_merchant.go:23-25 | Keys of queries, of documents and of lists of a collection never meet. |
| `TariffKeys.CollectionsApart` | internal/repository/payment_channel_cost_system.go:22-24 | Nor do the keys of different collections, which share one cache. |
| `TariffKeys.ColonsCollide` | internal/repository/payment_channel_cost_system.go:217 | With colons in the fields two different queries share a key. |
| `TariffKeys.PrintedQuery` | internal/repository/money_back_cost_merchant.go:305 | What stands between the colons of the query keys of the four collections. |
| `TariffKeys.PrintedIdsAndLists` | internal/repository/payment_channel_cost_merchant.go:23-25 | The printed keys of documents and lists of the four collections. |
| `CacheKeys.JoinInjective` | internal/repository/payment_channel_cost_merchant.go:23-25 | Texts without colons are read back from the key they are joined into. |
| `ObjectIds.ParsedIsCanonical` | internal/repository/models/payment_channel_cost_merchant.go:58-75 | An id is read in either case of its letters and written in one, which reads back as itself. |
| `TariffAnswers.StoredIsStored` | internal/repository/models/payment_channel_cost_merchant.go:58-75 | The document stored for a tariff has its ids as the database writes them, is stored as it is, and is what reads by the tariff’s own ids mean. |
| `TariffAnswers.ReplacingChangesFresh` | internal/repository/payment_channel_cost_merchant.go:218-333 | Replacing a document by another of the same id changes the answer to a query, in whatever spelling of the merchant’s id, exactly if the old one was or the new one is part of it. |
| `TariffAnswers.MalformedIdsRead` | internal/repository/payment_channel_cost_merchant.go:175-184 | A text that is no id stands for 24 zeros in the two collections for channels and for nothing in the others. |
| `TariffAnswers.ReadByIdMeans` | internal/repository/payment_channel_cost_merchant.go:175-190 | A tariff is read by an id, in either case, exactly if it is stored under it and active. |
| `TariffAnswers.ListHolds` | internal/repository/payment_channel_cost_merchant.go:390-425 | A list holds the tariffs of the merchant, in either case of his id, as often as they are stored; inactive ones in one collection only. |
| `TariffCache.UpdatedQuery` | internal/repository/payment_channel_cost_merchant.go:478-535 | Of the queries without colons, a write drops exactly the one for the tariff’s own country and the generic one, as the tariff spells them; the entry of any other is untouched. |
| `TariffCache.WriteReaches` | internal/repository/payment_channel_cost_merchant.go:478-535 | After a write nothing is cached for its country’s query, for the generic one and for its merchant’s list, and under its id the tariff if it is active. |
| `TariffCache.WriteKeepsQueries` | internal/repository/payment_channel_cost_system.go:116-160 | Over any coherent cache of printed keys, writing a stored tariff keeps every cached Find without colons right exactly if no such cached query that the write does not drop, in whatever spelling of the merchant’s id, is answered with the tariff before or after. |
| `TariffCache.BlindSpot` | internal/repository/payment_channel_cost_merchant.go:478-535 | A write misses a query for the key fields of its tariff exactly if the query spells the name in another case or the merchant’s id in another way, or the tariff is generic and the query names a country. |
| `TariffCache.CountryWriteIsSafe` | internal/repository/payment_channel_cost_system.go:430-472 | If what is cached spells the merchant’s id and the name as the tariff does, writing a tariff of a country never leaves a cached Find wrong. |
| `TariffCache.GenericWriteIsUnsafe` | internal/repository/payment_channel_cost_system.go:430-435 | Under the same spellings, writing a generic tariff keeps every cached Find right exactly if no cached query for a country was or would now be answered with it. |
| `TariffCache.InsertKeepsQueries` | internal/repository/payment_channel_cost_merchant.go:37-72 | Inserting keeps every cached Find right exactly if no cached query it does not drop, in whatever spelling, is now answered with the new tariff. |
| `TariffCache.WriteKeepsIds` | internal/repository/payment_channel_cost_system.go:162-211 | Writing a stored document keeps GetById right exactly if it changes nothing or nothing is cached under another spelling of its id. |
| `TariffCache.InsertKeepsIds` | internal/repository/payment_channel_cost_system.go:38-70 | Inserting always does, whatever is read and cached in other spellings. |
| `TariffCache.PhantomWrite` | internal/repository/payment_channel_cost_system.go:116-160 | Writing an id that does not exist, in any spelling, keeps GetById right exactly if the write is a deletion; else a document that is not stored is cached. |
| `TariffCache.WriteKeepsLists` | internal/repository/payment_channel_cost_merchant.go:378-457 | Writing a stored document keeps every cached list right exactly if those it does not drop, of other merchants and of other spellings of its own, look the same with it. |
| `TariffCache.InsertKeepsLists` | internal/repository/payment_channel_cost_merchant.go:378-457 | Inserting does exactly if the new tariff belongs on no list cached under another spelling of its merchant’s id. |
| `TariffCache.FindKeepsCoherence` | internal/repository/money_back_cost_system.go:163-289 | Caching the answer to a query keeps all cached answers to queries without colons right, even if the query has colons itself, and the cached documents and lists too. |
| `TariffCache.GetKeepsCoherence` | internal/repository/payment_channel_cost_merchant.go:167-216 | So does caching a document under the id as it was spelled. |
| `TariffReplacing.ReplacingKeepsQueries` | internal/repository/payment_channel_cost_merchant.go:537-568 | Replacing all tariffs of a merchant keeps every cached Find right exactly if each cached query that the insertion does not drop, which is every one when it fails, is left the same answer: those of the merchant, in whatever spelling, the same tariffs, another’s none of the new ones. |
| `TariffReplacing.ReplacingByNothing` | internal/repository/payment_channel_cost_merchant.go:537-568 | Replacing them by an empty list deletes them and tells the cache nothing: it stays right exactly if no cached Find of the merchant, in whatever spelling, has an answer. |
| `TariffReplacing.ReplacingKeepsLists` | internal/repository/money_back_cost_merchant.go:512-543 | It keeps every cached list right exactly if each list that the insertion does not drop, other spellings of the merchant included, gains what it loses, successful or not. |
| `TariffReplacing.ReplacingKeepsIds` | internal/repository/money_back_cost_merchant.go:512-543 | It keeps every cached document right exactly if each one that the insertion does not set, under the spelling it is cached with, is another merchant’s or inserted again unchanged, successful or not. |
| `TariffRepository.FindStaysCoherent` | internal/repository/payment_channel_cost_merchant.go:218-333 | In every run that maintains country tariffs only, spells merchants and names in one way, and replaces a merchant’s tariffs completely and only where all his cached queries are dropped, Find answers every query without a colon as the collection would, whatever entries the cache loses: queries in any spelling of the merchant, or those in the database’s own while others are asked too. |
| `TariffRepository.IdsAndListsStayCoherent` | internal/repository/money_back_cost_merchant.go:161-291 | In every run of any of the four repositories that writes only existing documents, keeps their merchant, spells ids in one way, and replaces a merchant’s tariffs completely and only where all that is cached of him is dropped or set, GetById and the lists answer what the collection would: reads in any spelling, or those in the database’s own while others are made too. |
| `TariffStaleReads.DeletedButFound` | internal/repository/payment_channel_cost_system.go:320-362 | After Find and the deletion of the tariff found, the next Find is wrong if and only if the keys of the tariff miss the query. |
| `TariffStaleReads.GenericTariffOutlivesDeletion` | internal/repository/payment_channel_cost_system.go:430-435 | So every query for a country is still answered with a generic tariff deleted after it. |
| `TariffStaleReads.OtherSpellingOutlivesDeletion` | internal/repository/payment_channel_cost_merchant.go:478-535 | So is a query that spells the merchant’s id or the name in another way, and no other of the tariff’s own. |
| `TariffStaleReads.UpperCaseMerchantOutlivesDeletion` | internal/repository/payment_channel_cost_merchant.go:218-227 | A Find by a merchant’s id in upper case, then a deletion: the next Find is wrong. |
| `TariffStaleReads.OtherIdOutlivesDeletion` | internal/repository/payment_channel_cost_system.go:162-211 | A document read by some spelling of its id and then deleted is read by it still exactly if that is not its own spelling. |
| `TariffStaleReads.UpperCaseIdOutlivesDeletion` | internal/service/payment_channel_cost_system.go:154-165 | A read by the id in upper case and the deletion of what was read, as one call of the service does: the deleted tariff is still read as active, in a run that is sound for reads in the database’s own spelling. |
| `TariffStaleReads.ReplacedButFound` | internal/repository/payment_channel_cost_merchant.go:537-568 | A Find of a merchant’s tariff, then their replacement by nothing: nothing is stored and the next Find is wrong. |
| `TariffStaleReads.SharedKeySharesAnswer` | internal/repository/payment_channel_cost_system.go:217-221 | Of two queries with one key the second is answered like the first. |
| `TariffStaleReads.ColonsMisleadFind` | internal/repository/payment_channel_cost_system.go:217-221 | Two tariffs and one run, careful in every other way, after which a query with a colon is answered with the other tariff. |
| `TariffRepository.Repository.Find` | internal/repository/payment_channel_cost_merchant.go:218-333 | Answers from the cache if it can, else by the value of the merchant’s id, caching the answer as spelled unless there are no documents; over a coherent cache a query without colons gets the collection’s answer. |
| `TariffRepository.Repository.GetById` | internal/repository/payment_channel_cost_system.go:162-211 | Answers from the cache if it can, else with the active document of that id in either case, which it caches as spelled; over a coherent cache it answers as the collection would, but for the spelling of ids. |
| `TariffRepository.Repository.GetAll` | internal/repository/money_back_cost_merchant.go:213-291 | Answers a merchant’s list from the cache if it can, else with the database’s, which it caches, or not at all for an id it cannot read; over a coherent cache it holds what the collection would list, in some order. |
| `TariffRepository.Repository.UpdateCaches` | internal/repository/money_back_cost_merchant.go:465-510 | Drops the printed keys of the tariff’s own country, of the generic query, of the merchant’s list and of the document, and sets the last for an active tariff. |
| `TariffRepository.Repository.Insert` | internal/repository/money_back_cost_merchant.go:37-69 | Stores a tariff as active, with its ids as the database writes them, and updates the caches as they were spelled; under an id that is taken or none nothing changes. |
| `TariffRepository.Repository.Update` | internal/repository/payment_channel_cost_merchant.go:120-165 | Replaces the stored document of that id, if any, and updates the caches in any case; three of the four collections make it active. A malformed id is refused. |
| `TariffRepository.Repository.Delete` | internal/repository/payment_channel_cost_system.go:320-362 | Makes the stored document inactive and updates the caches; a malformed id is refused. |
| `TariffRepository.Repository.DeleteAndInsertMany` | internal/repository/money_back_cost_merchant.go:512-543 | Deletes the merchant’s active tariffs, inserts the new ones up to the first taken id, or none if one has a malformed id, and updates the caches only if all were inserted. |
| `TariffCharges.FreshIsSpecificThenGeneric` | internal/repository/payment_channel_cost_merchant.go:260-320 | What Find answers from the collection: one tariff for the country, else one for none; or the set of the country’s, if any, before the set of the generic ones, if any. |
| `TariffCharges.TariffsServed` | internal/repository/payment_channel_cost_merchant.go:238-257 | Those are the stored active tariffs of the merchant’s id in either case, the name in any, and the terms and region asked. |
| `TariffCharges.FoundIsCached` | internal/repository/payment_channel_cost_system.go:297-317 | Find caches what it found, but not in the system collection that it found nothing. |
| `TariffCharges.ChoiceIsCharged` | internal/service/payment_channel_cost_merchant.go:255-295 | The tariff chosen, said of the documents stored: for the country with the greatest threshold the amount reaches; if it reaches none of those, the generic one. |
| `TariffCharges.GetCost` | internal/service/payment_channel_cost_merchant.go:255-295 | Query, cache and choice in one: over a coherent cache the tariff charged is that one, or the error says that none is stored for the query or none is reached. |
| `CountryCache.ListedHolds` | internal/repository/country.go:224-424 | A list holds exactly the countries that belong on it, as often as they are stored. |
| `CountryCache.ListsByFields` | internal/repository/country.go:224-424 | The four lists by the fields of a country: all, those with VAT outside the United States, those allowed high risk payments, those allowed payments. |
| `CountryCache.ListedAscends` | internal/repository/country.go:224-424 | A list is sorted by code. |
| `CountryCache.ListsStayCoherent` | internal/repository/country.go:430-458 | The four cached lists survive every operation, however codes and ids are used, but a bulk insert that fails; after that they are right exactly if no country that got in belongs on one of them. |
| `CountryCache.InsertKeepsCodes` | internal/repository/country.go:39-74 | Inserting keeps the cached entries by code right exactly if the code is new. |
| `CountryCache.UpdateKeepsCodes` | internal/repository/country.go:125-175 | Updating keeps them right exactly if the code stays or the old code is not cached. |
| `CountryCache.UpdateOfMissing` | internal/repository/country.go:125-175 | Updating a country that is not stored always makes a cached entry wrong. |
| `CountryCache.ReadsStayCoherent` | internal/repository/country.go:177-458 | In every run with unique and unchanging codes, whose bulk inserts are complete or add to no cached list, all five cached reads answer what the collection would, whatever entries the cache loses. |
| `CountryCache.Repository.GetByIsoCodeA2` | internal/repository/country.go:177-222 | Answers from the cache if it can, else with the first stored document of the code, which it caches. |
| `CountryCache.Repository.List` | internal/repository/country.go:224-424 | Answers one of the four lists from the cache if it can, else from the collection, caching it. |
| `CountryCache.Repository.UpdateCache` | internal/repository/country.go:430-458 | Sets the entry of the written country, if one was written, and drops all four lists. |
| `CountryCache.Repository.Insert` | internal/repository/country.go:39-74 | Stores a country under a new id and updates the cache; under a taken id nothing changes. |
| `CountryCache.Repository.MultipleInsert` | internal/repository/country.go:76-123 | Appends the countries up to the first taken id, and drops the cached lists only if all were appended. |
| `CountryCache.Repository.Update` | internal/repository/country.go:125-175 | Replaces the stored document, if any, and updates the cache in any case. |
| `Payouts.WriteKeepsReads` | internal/repository/payout.go:465-492 | Writing a document keeps every cached read right exactly if it is new, keeps its merchant, or no entry is cached under the merchant it is taken from. |
| `Payouts.ReadsStayCoherent` | internal/repository/payout.go:44-245 | In every run of reads, losses and writes that keep the merchant of a document, both cached reads answer like the store. |
| `Payouts.UpdateOfMissing` | internal/repository/payout.go:76-120 | Updating a document that is not stored always makes a cached read wrong. |
| `Payouts.KeysApart` | internal/repository/payout.go:31-32 | The two kinds of key never meet for an id without a colon. |
| `Payouts.ColonIdReadsAPair` | internal/repository/payout.go:122-130 | For an id with a colon they can: such a read is answered although the store has no such id. |
| `Payouts.Repository.Insert` | internal/repository/payout.go:44-74 | Stores a new document and caches it under both keys. |
| `Payouts.Repository.Update` | internal/repository/payout.go:76-120 | Replaces a stored document; the two cache entries are written whether or not there was one. |
| `Payouts.Repository.GetById` | internal/repository/payout.go:122-174 | Over a coherent cache, answers what the store holds under the id and keeps the cache coherent. |
| `Payouts.Repository.GetByIdMerchantId` | internal/repository/payout.go:176-245 | Over a coherent cache, answers what the store holds under the id for that merchant, or for any if the merchant id is empty. |
| `Payouts.GetBalanceAmount` | internal/repository/payout.go:247-324 | The balance is the sum of the rounded fees of the merchant’s pending and paid documents in the currency: the error for several currencies never happens and the last rounding changes nothing. |
| `Payouts.OwedGrows` | internal/repository/payout.go:247-324 | The balance grows by the rounded fees of each pending or paid document of the merchant in the currency, and by nothing else. |
| `CacheVersions.StorageKeyInjective` | internal/database/cache.go:138-140 | Version and key are read back from a stored key, for versions without a colon. |
| `CacheVersions.VersionsApart` | internal/database/cache.go:109-140 | No stored key is selected by the scan patterns of two such versions. |
| `CacheVersions.ColonVersionsMix` | internal/database/cache.go:109-140 | With a colon in a version, another version’s pattern selects its keys. |
| `CacheVersions.CleaningKeepsTheNewest` | internal/database/cache.go:87-107 | With finished scans and succeeding deletes the index is left with the two newest versions, or all if fewer; every key of a dropped version is gone and every key of a kept one is still there with its value. |
| `CacheVersions.TwoVersionsStay` | internal/database/cache.go:16-107 | The index is left with two versions, or with all if they were fewer. |
| `CacheVersions.KeptVersionsKeepKeys` | internal/database/cache.go:87-136 | Whatever fails, no key of a version that is not cleaned is touched. |
| `CacheVersions.KeysLeftBehind` | internal/database/cache.go:115-136 | A finished scan of a version that is reached leaves the version out of the index with one of its keys still stored exactly if some page could not be unlinked, no step before it failed, and some key of the version is on none of the pages before. |
| `CacheVersions.FailedUnlinkStrands` | internal/database/cache.go:124-128 | One failed deletion is reported as success: the version is forgotten and its key stays. |
| `CacheVersions.IndexIsNoVersionsKey` | internal/database/cache.go:11-13 | The index of versions is no version’s key and is never scanned away. |
| `CacheVersions.Cache.constructor` | internal/database/cache.go:33-41 | Registers the version, so that it is not among the outdated ones if it is younger than all others. |
| `CacheVersions.Cache.Set` | internal/database/cache.go:43-58 | Afterwards the own version reads the value under the key, and any other key of any version without a colon reads as before. |
| `CacheVersions.Cache.Delete` | internal/database/cache.go:79-81 | Afterwards the own version reads nothing under the key, and any other key of any version without a colon reads as before. |
| `CacheVersions.Cache.CleanVersion` | internal/database/cache.go:109-136 | Removes what the pages show up to the first failure; a failed scan is reported, a failed deletion is not. |
| `CacheVersions.Cache.CleanOldestVersion` | internal/database/cache.go:87-107 | Cleans the versions past the newest two in turn up to the first reported failure, and takes those cleaned out of the index. |
| `Calendar.MonthOf` | internal/repository/dashboard.go:750-822 | Every day lies in the month returned. |
| `Calendar.YearStart` | internal/repository/dashboard.go:804-817 | Months of 28 to 31 days laid end to end make years start where the Gregorian rule of leap years says, before and after year 1. |
| `Calendar.UnixEpoch` | internal/repository/dashboard_processor.go:1349-1351 | The day Unix time counts from has the number the chart labels use, and is a Thursday. |
| `Calendar.AddYearsStaysInYear` | internal/repository/dashboard.go:809-817 | A whole number of years away a date stays in the year counted off, even 29 February in a year that has none. |
| `Periods.UnitIsUnique` | internal/repository/dashboard.go:750-822 | Days, weeks from Sunday, months, quarters and years are grids: every day is in exactly one unit of each. |
| `Periods.WeeksStartOnSunday` | internal/repository/dashboard.go:768-780 | Every week of the grid starts on a Sunday, the default of the library. |
| `Periods.QuartersBack` | internal/repository/dashboard.go:794-802 | One month back from the start of a quarter is in the quarter before, and four months back in the one before that. |
| `Periods.PeriodIsUnit` | internal/repository/dashboard.go:750-822 | At every instant each of the 15 periods is the unit of its grid as many units back as its name says, and an unknown name is refused. |
| `Periods.WindowsTile` | internal/repository/dashboard.go:38-51 | At every instant the current window holds the moment, the window compared with ends a nanosecond before it, the one before that a nanosecond before both, and no two share an instant. |
| `Periods.TwoBackIsLast` | internal/repository/dashboard.go:38-51 | A known period has no window to be compared with exactly if it is two units back. |
| `Periods.ReportNeverOutlivesItsMeaning` | internal/repository/dashboard.go:843-961 | A report on a past period expires exactly when the name of the period would come to mean another window: at a later instant the two windows are equal if and only if the report has not expired. |
| `Periods.NewProcessor` | internal/repository/dashboard.go:824-964 | Fails exactly for a malformed merchant id or an unknown period; else the processor has the window getStartAndEndOfPeriod gives, the grouping of its grid, the expiry above and a cache key only if reports are kept. |
| `Periods.ReportCache.ExecuteReport` | internal/repository/dashboard_processor.go:37-74 | A report of a current period is that of the data as they are; a kept one is of the same filter and kind at some state the data have been in, and so the present one if they have not changed; failures are not kept. |
| `CustomersChart.ExecuteCustomersChart` | internal/repository/dashboard_processor.go:1339-1368 | Draws exactly the longest run of rows that goes forward within the window, each at its day and zero elsewhere; fails exactly if a date is reached that cannot be read. |
| `CustomersChart.ChartIsLookup` | internal/repository/dashboard_processor.go:1339-1368 | For dates in ascending order, none before the start, entry i is labelled with the i-th day and holds that day’s count, or zero if there is none. |
| `CustomersChart.LabelsAreUnixTime` | internal/repository/dashboard_processor.go:1339-1368 | Labels are Unix time: zero on the first of January 1970 and 86400 seconds a day. |
| `CustomersChart.SortedListsDrawTheWindow` | internal/repository/dashboard_processor.go:1339-1368 | For such a list the rows drawn are exactly those dated within the window. |
| `CustomersChart.DatesReadBack` | internal/repository/dashboard_processor.go:1289-1291 | A date the database writes for a day of a four-digit year is read back as that day. |
| `CustomersChart.WrittenDatesNeverFail` | internal/repository/dashboard_processor.go:1353-1360 | No chart of rows so dated ever fails. |
| `CustomersChart.ChartConserves` | internal/repository/dashboard_processor.go:1339-1368 | The chart adds up to the counts of the rows drawn, whatever the list. |
| `CustomersChart.EarlyRowBlanksTheChart` | internal/repository/dashboard_processor.go:1346-1366 | One row dated before the start leaves the whole chart at zero. |
| `CardPay.Refund.ProcessRefund` | internal/payment_system/cardpay.go:1053-1101 | A callback that is all in order and not final changes nothing; any other sets the status it deserves, and the external id and time only if it matched; skipped, accepted and unsigned callbacks are each reported as such. |
| `CardPay.Refund.CreateRefund` | internal/payment_system/cardpay.go:946-1051 | The refund is underway with the answered id if the answer is welcome, else rejected with its old id. |
| `CardPay.LastWordDecides` | internal/payment_system/cardpay.go:1053-1101 | After any sequence of callbacks the status is the verdict of the last one that is not skipped, whatever came before. |
| `CardPay.SkippedLeaveNoTrace` | internal/payment_system/cardpay.go:1092-1094 | A run of skipped callbacks leaves the refund as it was. |
| `CardPay.CompletionIsEarned` | internal/payment_system/cardpay.go:1053-1101 | A refund that was not complete is so after a run exactly if the last word was a signed callback that reported completion and matched method, amount and currency. |
| `CardPay.StatusesAreReported` | internal/payment_system/cardpay.go:1053-1101 | A refund ends complete, declined or cancelled exactly if some callback said just that and was signed, allowed, and for the method, amount and currency, and all behind it were as good but not final. |
| `CardPay.RejectionIsReported` | internal/payment_system/cardpay.go:1053-1101 | It ends rejected exactly if some callback failed one of these checks and all behind it were good but not final. |
| `CardPay.CompletionIsNotKept` | internal/payment_system/cardpay.go:1059-1062 | A completed refund stays so through a callback exactly if that one matches and is skipped or completes it again. |
| `CardPay.ExternalIdOnSuccess` | internal/payment_system/cardpay.go:1097-1098 | The external id changes only to that of a callback that matched and was final. |
| `CardPay.LastGoodWordNames` | internal/payment_system/cardpay.go:1097-1098 | It bears the id and time of the last callback that passed the checks and was final, or its own if there was none. |
| `CardPay.Order.ProcessPayment` | internal/payment_system/cardpay.go:431-528 | The order is what the callback makes of it: rejected unless all is in order and final, with transaction, closing time, cancellation and refund permission set only then; a skipped callback leaves the rejection standing. |
| `CardPay.Order.NoteCancellation` | internal/payment_system/cardpay.go:507-522 | The cancellation is replaced exactly if a decline code or reason was given, and holds those two. |
| `Callbacks.OrderDesk.PaymentCallbackProcess` | internal/service/order.go:1235-1436 | The stored order changes only if it was still in progress and the callback is not skipped; a skipped callback’s rejection stays in the copy; accepted, skipped and unsigned callbacks are each answered as such. |
| `Callbacks.FirstWordDecides` | internal/service/order.go:1246-1293 | Over any sequence of callbacks the first that is not skipped decides everything about the stored order, for ever; while all are skipped it stays as it was. |
| `Callbacks.PaymentIsEarned` | internal/service/order.go:1246-1293 | A stored order is complete after a run exactly if that first callback was signed, matched the order and reported completion, and it then names the transaction. |
| `Callbacks.PaymentsAreReported` | internal/service/order.go:1246-1293 | An order in progress ends complete, declined or cancelled exactly if some callback said just that with nothing wrong, and all before it had nothing wrong but were not final. |
| `Callbacks.DecidedOrder` | internal/payment_system/cardpay.go:480-528 | Transaction, closing time, parameters, time of cancelling, leave to refund and reason of failure are those of one callback. |
| `Callbacks.RefundDesk.ProcessRefundCallback` | internal/service/refund.go:166-300 | Whatever the gateway made of the refund is stored, and the refund order is made the first time it is complete. |
| `Callbacks.AtMostOneRefundOrder` | internal/service/refund.go:247-276 | However often completion is reported and whatever comes between, at most one order is made for a refund, and it stays. |
| `Callbacks.RefundOrderIsEarned` | internal/service/refund.go:247-260 | It is made in a run exactly if a signed callback for the right method, amount and currency reported completion and making the order did not fail. |
| `Callbacks.RefundOrdersAreReported` | internal/service/refund.go:247-260 | The refund order is made exactly if some signed callback for the method, amount and currency reported completion and making the order succeeded. |
| `Callbacks.OrderOutlivesCompletion` | internal/service/refund.go:228-245 | A refused callback after completion leaves a rejected refund whose order is still made. |
| `CardPayTokens.TokenStore.SetToken` | internal/payment_system/cardpay.go:697-713 | Stores a well-formed token and frees the lock; a malformed one keeps the lock, and with the lock kept the call waits for ever. |
| `CardPayTokens.TokenStore.GetToken` | internal/payment_system/cardpay.go:715-739 | Returns the token good for access; else, if one is good for a refresh, what the refresh stored; else none. |
| `CardPayTokens.TokenStore.Auth` | internal/payment_system/cardpay.go:544-615 | Is ready with the token at hand, a refreshed one or a new grant, in that order, and says when it is refused or waits for ever. |
| `CardPayTokens.LockIsLostByMalformedAnswer` | internal/payment_system/cardpay.go:697-713 | The lock is lost in a run of requests exactly if some request reads a malformed answer. |
| `CardPayTokens.LossIsForGood` | internal/payment_system/cardpay.go:697-739 | From then on no token is stored again, and a request is served exactly while the terminal’s old token is good for access. |
| `CardPayTokens.ServedWhileUnlocked` | internal/payment_system/cardpay.go:544-739 | Until then a request is served exactly if a token is good for access or a well-formed answer is read before a malformed one, and waits only if it loses the lock itself. |
| `CardPayTokens.GrantLasts` | internal/payment_system/cardpay.go:697-739 | A stored grant serves requests up to the end of its access time, and a refresh up to the end of its refresh time. |

## Left out

- TariffLookup.ChooseTariff: of equal thresholds any may be taken, because the source's sort is not stable and a caller cannot rely on the order.
- TariffRepository.Repository.Find: names are compared as whole words without regard to ASCII case; pattern characters in a name, which the database would read as a regular expression, are not modelled.
- OrderRepository.Repository.UpdateOrderView: fields copied from the order without arithmetic are carried only where a report or a rule reads them.
- CustomersChart.ExecuteCustomersChart: the number of days is given; the source computes it in floating point from a window that ends a nanosecond short, so that the last day of most windows is not drawn.
- Callbacks.OrderDesk.PaymentCallbackProcess: callbacks of a subscription already paid once, which are moved to a new order, are not modelled, nor what follows once the order is stored.
- Callbacks.RefundDesk.ProcessRefundCallback: stores always succeed here; a failed store after the refund order is made would let a second one be made. Marking the original order as refunded is not modelled.
- CardPay.Refund.CreateRefund: a welcome answer without refund data, which the source reads through a nil pointer, is not modelled.
- CardPayTokens.TokenStore.SetToken: a body holding the word null is not modelled; calls are one at a time, so that waiting for the lock is waiting for ever.
- Keys.KeyRepository.Insert: keys are inserted free, as its only caller does; a document with an order or a deadline is not modelled.
- Keys.KeyRepository.ReserveKey: deadlines and times of redeeming never coincide with the zero time, which stands for "not set".
- Payouts.Repository.Insert: documents hold their ids as the database writes them; the journal of changes is not modelled.
- Periods.ReportCache.ExecuteReport: failing cache writes are not modelled.
- CacheVersions.Cache.Set: expiry of entries and the encoding of values are not modelled; other processes do not write while versions are cleaned.
- RoyaltySummary.SummariesDrift: stated before the last formatting of amounts, whose library is not part of this model, and without the order of items, which the source sorts by an unordered set of fields.
- TariffRepository.Repository.Insert: a tariff without an id, for which the mapper would choose one while the cache is told the empty id, is refused here; the services that insert tariffs give each an id first.
- Malformed object ids outside order views, payouts, tariffs and report processors, and errors of the database and the cache: they stop an operation before or after the steps modelled.
- Floating-point representation of amounts; time zones and daylight saving; a clock that moves while one call computes a window.
- Model mappers, taken as identity; bulk inserts of tariffs other than DeleteAndInsertMany; CreatePayment and recurring plans; public and private transaction lists; the other dashboard figures.
- Repositories that only store and fetch: they would add easy members only.
