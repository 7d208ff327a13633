# Shipping-quote app: a verified model of its core

The app is a small single-page tool for a shop that ships orders through several shipping portals.
For each order the operator types quotes into a form. Each quote names a portal, a carrier and a price.
The app then does three things:

- It compares the quotes. It finds the cheapest and the most expensive quote, takes the chosen one, and computes the savings.
- It stores the order as a shipment record. The record goes to a remote `shipments` table, or to a list kept in the browser.
- It reports on the stored records: savings, profit, the best and worst customer, the favourite carrier, and the suggested portal for a destination. It also reports a parcel's tracking status.

This project models that core in Dafny and proves what each part promises.

| file | module | models |
|---|---|---|
| `base.dfy` | `Base` | optional values (`undefined`/`null`/NaN), and the outcome of a call that may throw |
| `text.dfy` | `Text` | ASCII `toLowerCase`/`toUpperCase`, `startsWith`, `includes`, and `parseFloat` for decimal text |
| `stable_sort.dfy` | `StableSort` | `Array.prototype.sort` with a numeric comparator. It is proved sorted, a permutation, and stable. Its first element is the first minimum and its last element the last maximum. |
| `tally.dfy` | `Tally` | the `acc[key] = (acc[key] \|\| 0) + w` accumulator. A plain object keeps its keys in insertion order, so the tally is a sequence of entries. |
| `records.dfy` | `Records` | quotes, shipment records and remote rows; `mapToDb`/`mapFromDb`; the `\|\| 0` sums over records |
| `quotes.dfy` | `Quotes` | the new-shipment page: the portal/carrier rule, the quote-list edits (a `QuoteForm` class), the analysis, and what a submit hands to the store |
| `reports.dfy` | `Reports` | the reports page: `calculateStats` as two loop methods, and the search filter |
| `storage.dfy` | `Storage` | the storage service. The browser list is a `ShipmentStore` class. The module also has the record-level operations, `getSuggestedPortal`, `getStats` and `getConnectionStatus`. |
| `tracking.dfy` | `Tracking` | the tracking service: the prefix rule of the demonstration mode, and the 17TRACK event-code mapping |

Some things are outside the program's own logic. Each of these is a parameter of the call that uses it:

- The backend's answer to each request is a `Remote` value: `Unconfigured | Reply(data) | Refused(message) | Threw(message)`.
- The current time is an `Instant`, or an ISO text for tracking.
- Fresh identifiers are ordinary arguments.
- The tracking API's answer is an `ApiAnswer` value.

The browser list is `ShipmentStore.shipments`. A stored text that `JSON.parse` cannot read is `ShipmentStore.corrupt`.

Behaviours of the code that a reader might not expect, all of them modelled as written:

- The analysis accepts quotes with negative prices (`src/pages/NewShipment.jsx:113`): any price text that reads as a number is eligible.
- `saveShipment` always sets status 'Pending', even when the caller supplies a status (`src/services/storage.js:67`).
- Some remote errors do not fall back to the browser list:
  - `updateShipment` rethrows a remote error (`src/services/storage.js:119-123`).
  - `deleteShipment` and `updateStatus` ignore the remote answer (`src/services/storage.js:136-138, 147-152`).
  - A remote request that throws inside `saveShipment` or `getShipment` is not caught.
- `getShipments` turns a local read error into an empty list instead of reporting it (`src/services/storage.js:56-58`).
- The translation to the remote schema drops `trackingHistory`, so it is not lossless for that field (`src/services/storage.js:225-255`).
- Updating an unknown id locally changes nothing and raises no error (`src/services/storage.js:129`).

## Model

| member | source | states |
|---|---|---|
| Quotes.AllowedCarriers | src/pages/NewShipment.jsx:106-110 | 'My DHL' allows only DHL and 'BRT' only BRT. Every other portal allows all six carriers. The list is never empty and holds only known carriers. |
| Quotes.InitialQuotesAsWrittenBreakRule | src/pages/NewShipment.jsx:35-39 | The form's initial quotes, as written, break the portal/carrier rule (see Findings). |
| Quotes.InitialQuotes | src/pages/NewShipment.jsx:35-39 | There are three initial quotes with ids 1-3, the first three portals and no price. Each portal allows its quote's carrier. |
| Quotes.InitialQuotesDifferInThirdCarrier | src/pages/NewShipment.jsx:35-39 | The corrected list agrees with the list as written except for the third quote's carrier, which is 'DHL' instead of 'TNT'. |
| Quotes.QuoteForm.constructor | src/pages/NewShipment.jsx:35-43 | The form starts with the corrected initial quotes (see Findings) and no manual choice. |
| Quotes.NewQuote | src/pages/NewShipment.jsx:80 | An added quote has the given id and an empty price, and its portal allows its carrier. |
| Quotes.QuoteForm.AddQuote | src/pages/NewShipment.jsx:79-81 | Adding appends exactly one new quote at the end and leaves the choice alone. The portal/carrier rule keeps holding. |
| Quotes.WithoutQuote | src/pages/NewShipment.jsx:84 | A quote is kept iff its id differs from the removed id. |
| Quotes.WithoutQuoteKeepsOrder | src/pages/NewShipment.jsx:84 | Removal keeps the remaining quotes in order: it distributes over concatenation. |
| Quotes.WithoutAbsentQuote | src/pages/NewShipment.jsx:84 | Removing an id that no quote has leaves the list unchanged. |
| Quotes.QuoteForm.RemoveQuote | src/pages/NewShipment.jsx:83-86 | The quotes with the id go. The choice is cleared iff it was that id. |
| Quotes.ChangedQuote | src/pages/NewShipment.jsx:92-102 | A portal change keeps the carrier if the new portal allows it, and otherwise resets it to the first allowed carrier. A carrier or price change sets only that field. The id never changes. |
| Quotes.ChangedQuotes | src/pages/NewShipment.jsx:89-103 | Only quotes with the given id change. The length and order are kept. |
| Quotes.ChangeKeepsCompatible | src/pages/NewShipment.jsx:94-100 | Any edit keeps every quote's carrier allowed by its portal, as long as a carrier edit picks an allowed carrier. |
| Quotes.PortalSwitchBackKeepsReset | src/pages/NewShipment.jsx:95-100 | For every quote and every portal that forbids its carrier: the switch puts the portal's first allowed carrier in place of the old one. Switching back keeps id, price and the original portal, and gives a carrier the original portal allows. Wherever that portal allows the new carrier, or allows all carriers, the new carrier stays and the old carrier does not come back. |
| Quotes.QuoteForm.ChangeQuote | src/pages/NewShipment.jsx:88-104 | The new quote list is the changed list, and the choice is untouched. |
| Quotes.QuoteForm.SelectQuote | src/pages/NewShipment.jsx:363 | The manual choice becomes the given id, and the quotes stay as they are. |
| Quotes.QuoteForm.LoadShipment | src/pages/NewShipment.jsx:58-61 | Editing loads the stored quotes, or none. The choice becomes the stored selected quote's id when there is one. |
| Quotes.EligibleIffParses | src/pages/NewShipment.jsx:113 | A quote is eligible exactly when its price reads as a number. The emptiness test adds nothing, because an empty price never reads as one. |
| Quotes.EligibleQuotes | src/pages/NewShipment.jsx:113 | A quote is kept iff its price text is non-empty and parses as a number. |
| Quotes.EligibleQuotesKeepOrder | src/pages/NewShipment.jsx:113 | The filter keeps the form's order: it distributes over concatenation. The first-wins tie-breaks rely on this. |
| Quotes.FindQuote | src/pages/NewShipment.jsx:121 | The result is the first quote with the id, and none exactly when no quote has it. |
| Quotes.Analyze | src/pages/NewShipment.jsx:112-126 | There is no analysis exactly when no quote is eligible. Best, worst and selected are eligible quotes of the list. Best has the lowest price and worst the highest. savings = worst − selected, and 0 ≤ savings ≤ worst − best. Selected is the eligible quote with the chosen id if there is one; otherwise it is best. |
| Quotes.AnalysisTieBreaks | src/pages/NewShipment.jsx:116-118 | Best is the first eligible quote of lowest price. Worst is the last eligible quote of highest price. This holds because the sort is stable. |
| Quotes.SingleQuoteNoSavings | src/pages/NewShipment.jsx:117-123 | With one eligible quote the savings are 0. |
| Quotes.MaxOf | src/pages/NewShipment.jsx:167 | `Math.max` returns an element that no element exceeds. |
| Quotes.PositivePrices | src/pages/NewShipment.jsx:163-165 | It keeps only positive prices, and every positive parsed price appears. |
| Quotes.PositivePricesFromQuotes | src/pages/NewShipment.jsx:163-165 | Every value in the list is the parsed price of some stored quote. |
| Quotes.PositivePricesKeepOrder | src/pages/NewShipment.jsx:163-165 | The prices keep the quotes' order: the list distributes over concatenation. |
| Quotes.EditedSavings | src/pages/NewShipment.jsx:159-170 | With a positive stored price, the savings are a number iff the stored selected price is. They then equal some positive price less the selected price, and no positive price gives more. Without one, the stored savings are kept, or 0. |
| Quotes.RecalculatedOnEdit | src/pages/NewShipment.jsx:153-177 | Form fields override the stored ones, and every other stored field is kept. profit = payment − stored selected price, with an empty payment or a missing quote read as 0. savings = highest positive stored price − selected price when such a price exists; otherwise the stored savings (or 0) are kept. |
| Quotes.DraftFromAnalysis | src/pages/NewShipment.jsx:187-193 | The record holds the selected quote, all quotes and the analysis savings. profit = payment − selected price. The store assigns the id, date and status. |
| Quotes.Submit | src/pages/NewShipment.jsx:128-202 | A new shipment without an analysis only asks for quotes. A new record is saved exactly when there is an analysis and no non-empty routed id. An update always carries a non-empty routed id as the record's id. An error shows exactly on the edit path without an analysis when the lookup fails or finds nothing. Editing without an analysis sends the stored record recalculated by the form, under the routed id. With an analysis, the record sent is the draft built from the analysis, under the routed id when editing. |
| Reports.CalculateStats | src/pages/Reports.jsx:37-97 | The six figures equal their reference definitions: four sums, and the best and worst customer of the per-customer profit tally. |
| Reports.Accumulate | src/pages/Reports.jsx:48-65 | The loop's sums equal the reference sums. Its dictionary (key order and values) holds exactly the tally of profit per customer key. |
| Reports.AddProfit | src/pages/Reports.jsx:63-64 | One dictionary step: after it the dictionary holds the tally with the profit added under the customer. |
| Reports.HoldsFresh | src/pages/Reports.jsx:63-64 | A first-seen customer is appended to the dictionary with its profit. |
| Reports.HoldsExisting | src/pages/Reports.jsx:63-64 | A customer already present has its value increased in place, and the key order is kept. |
| Reports.PickStandings | src/pages/Reports.jsx:67-87 | The strict `>`/`<` scan picks the first customer of highest and of lowest profit, and '-' when there is none. |
| Reports.InMonth | src/pages/Reports.jsx:49-56 | A record without a creation date is in no month (`new Date(undefined)` has no month). |
| Reports.ThisMonth | src/pages/Reports.jsx:56 | A shipment belongs to the current month iff its `createdAt` has the current month and year. |
| Reports.CustomerKey | src/pages/Reports.jsx:62 | The key is never empty. A non-empty name is its own key. Any key other than 'Unknown' is the shipment's name, so unnamed shipments are grouped under 'Unknown'. |
| Reports.ProfitItems | src/pages/Reports.jsx:50-64 | Each shipment contributes its customer key (an empty or missing name is 'Unknown') with its profit, or 0. |
| Reports.TotalsAdd | src/pages/Reports.jsx:50-54 | The totals are additive over concatenation. |
| Reports.MonthIsTotalOfMonth | src/pages/Reports.jsx:56-59 | The month figures are the totals of exactly the current month's shipments. |
| Reports.CustomerProfitsSumToTotal | src/pages/Reports.jsx:61-64 | The per-customer profits add up to the total profit. |
| Reports.CustomerProfitsMeaning | src/pages/Reports.jsx:61-64 | Each customer appears once. Its value is the profit of that customer's shipments. Every customer key comes from a shipment. |
| Reports.BestCustomerIsFirstHighest | src/pages/Reports.jsx:73-77 | The best customer has the highest profit, and every customer before it has strictly less. |
| Reports.WorstCustomerIsFirstLowest | src/pages/Reports.jsx:78-81 | The worst customer has the lowest profit, and every customer before it has strictly more. |
| Reports.EmptyReport | src/pages/Reports.jsx:42-87 | With no shipments every sum is 0 and both customers show '-'. |
| Reports.FilteredShipments | src/pages/Reports.jsx:106-113 | A shipment is kept iff the lower-cased order number, customer or tracking code includes the lower-cased term. |
| Reports.FilterKeepsOrder | src/pages/Reports.jsx:106 | The filter keeps the table's order: it distributes over concatenation. |
| Reports.SearchIgnoresCase | src/pages/Reports.jsx:107 | A term and its lower-cased form select the same shipments. |
| Reports.EmptySearch | src/pages/Reports.jsx:108-112 | An empty term keeps exactly the shipments with an order number, customer or tracking code. |
| Records.MapToDb | src/services/storage.js:225-239 | A record sent to the table and read back equals the record without its tracking history. |
| Records.MapFromDb | src/services/storage.js:241-255 | A row read from the table has no tracking history. |
| Records.RowRoundTrip | src/services/storage.js:225-255 | Every row survives being read and written back unchanged. |
| Records.TotalSavingsNotNegative | src/services/storage.js:189 | The `\|\| 0` sum of savings (also `src/pages/Reports.jsx:50-53`) is not negative when no record's savings are. |
| Storage.IndexOf | src/services/storage.js:128 | `findIndex` returns the first position with the id, or −1 when there is none. |
| Storage.Find | src/services/storage.js:109 | `find` returns the record at the first position with the id, and nothing exactly when no record has it. |
| Storage.Stamped | src/services/storage.js:63-69 | A saved record gets the fresh id, the creation time, status 'Pending' (whatever the draft says) and an empty history. Every other field comes from the draft. |
| Storage.Merged | src/services/storage.js:130 | A merged record always carries the new update time. |
| Storage.Updated | src/services/storage.js:127-132 | A local update keeps the length and every record's id. |
| Storage.WithoutId | src/services/storage.js:142 | A local delete keeps a record iff its id differs. |
| Storage.WithStatus | src/services/storage.js:155-161 | A status change keeps the length and every id. |
| Storage.Saved | src/services/storage.js:92 | A save puts the record in front and keeps the older records in order. |
| Storage.ShipmentStore.constructor | src/services/storage.js:91 | An empty browser store reads as an empty list. |
| Storage.ShipmentStore.GetShipments | src/services/storage.js:19-59 | A remote answer gives the translated rows, none with a history. Otherwise the result is the browser list, or an empty list when that is unreadable. It never fails. |
| Storage.ShipmentStore.GetShipment | src/services/storage.js:97-110 | A remote answer gives its row. A thrown request or an unreadable list fails. Otherwise the result is the first browser record with the id, and none iff no record has it. |
| Storage.ShipmentStore.SaveShipment | src/services/storage.js:62-95 | A remote answer is returned and the list is untouched. A thrown request fails. On a refusal, or with no backend, the stamped record is put in front of the list and returned. Unique ids stay unique. |
| Storage.ShipmentStore.UpdateShipment | src/services/storage.js:112-133 | With a backend, the list is untouched and a remote error is rethrown. Without one, the first record with the id is merged and nothing is inserted. |
| Storage.ShipmentStore.DeleteShipment | src/services/storage.js:135-144 | With a backend, only a thrown request fails and the list is untouched. Without one, every record with the id is removed. |
| Storage.ShipmentStore.UpdateStatus | src/services/storage.js:146-162 | With a backend, only a thrown request fails and the list is untouched. Without one, the status and time of the first record with the id change. |
| Storage.SaveDuringOutage | src/services/storage.js:62-110 | On any readable browser list, with a backend that refuses everything, the save puts the record in front of the list and it is found again by its id. |
| Storage.FindAfterSave | src/services/storage.js:92-109 | A saved record is found by its id ahead of older records. |
| Storage.SaveKeepsIdsUnique | src/services/storage.js:65-92 | Saving with an id not yet present keeps ids unique. |
| Storage.UpdateKeepsIdsUnique | src/services/storage.js:127-132 | Updating keeps ids unique. |
| Storage.UpdateAbsentIsNoop | src/services/storage.js:128-129 | Updating an id no record has changes nothing, so an update never inserts. |
| Storage.UpdateMergesFirstMatch | src/services/storage.js:128-130 | The record with the id becomes the stored record with the patch laid over it and the new time. Every other record is as it was. |
| Storage.MergeIdempotent | src/services/storage.js:130 | Merging the same patch twice is merging it once. |
| Storage.MergeFullPatch | src/services/storage.js:130 | A patch that has every field replaces the record, apart from the update time. |
| Storage.MergeEmptyPatch | src/services/storage.js:130 | An empty patch only refreshes the update time. |
| Storage.DeleteRemovesAll | src/services/storage.js:142 | After a delete no record has the id, and deleting again changes nothing. |
| Storage.DeleteKeepsOrder | src/services/storage.js:142 | A delete keeps the remaining records in order: it distributes over concatenation. |
| Storage.WithoutAbsentId | src/services/storage.js:142 | Deleting an id no record has changes nothing. |
| Storage.DeleteUndoesSave | src/services/storage.js:141-143 | Deleting a just-saved record's id restores the list as it was before the save. |
| Storage.StatusChangeShows | src/services/storage.js:155-161 | The first record with the id differs from before only in its new status and time, and no other record changes. |
| Storage.StatusChangeAbsentIsNoop | src/services/storage.js:156-157 | A status change for an id no record has leaves the list unchanged. |
| Storage.Round | src/services/storage.js:206 | `Math.round` is within one half of its argument. |
| Storage.CountItems | src/services/storage.js:177-197 | Each shipment counts once under its key. |
| Storage.CountWeight | src/services/storage.js:177-197 | A key's count in the tally is its number of occurrences. |
| Storage.MostFrequent | src/services/storage.js:183 | The sort-then-first pick is one of the keys counted. |
| Storage.MostFrequentMeaning | src/services/storage.js:183-199 | The sort-then-first pick chooses a key that occurs, with its true count. No key occurs more often, and a key first met earlier occurs strictly less often. |
| Storage.FirstMetComesFirst | src/services/storage.js:177-181 | A key met first earlier holds an earlier entry in the tally. |
| Storage.Pending | src/services/storage.js:191 | The pending count is at most the number of shipments. |
| Storage.PendingMeaning | src/services/storage.js:191 | No record is pending iff every status is 'Delivered'. Every record is pending iff none is, and that includes records with no status. |
| Storage.PendingAdds | src/services/storage.js:191 | The pending count adds up over the parts of a list. |
| Storage.Carriers | src/services/storage.js:193-194 | Each shipment contributes its selected quote's carrier. |
| Storage.Stats | src/services/storage.js:186-208 | The stats fail iff some shipment has no selected quote. Otherwise: total = length, pending is the count of records not 'Delivered', the savings are the `\|\| 0` sum, and recent is the first min(5, n) shipments. With no shipments the favourite is '-' at 0%. |
| Storage.FavoriteCarrier | src/services/storage.js:199-206 | The favourite carrier is used most often. Any carrier first met before it is used strictly less often, so the first met wins a tie. Its percentage is its rounded share of all shipments and lies in [0, 100]. |
| Storage.PercentageBounds | src/services/storage.js:206 | A rounded share of a count within a total lies in [0, 100]. |
| Storage.SuggestedPortal | src/services/storage.js:164-184 | An empty or missing country gives null. For any other country, the result is null exactly when no shipment went there. The call fails exactly when a matching shipment lacks a selected quote. |
| Storage.SameCountry | src/services/storage.js:171-173 | A shipment matches iff its non-empty destination equals the country, ignoring case. |
| Storage.SameCountryKeepsOrder | src/services/storage.js:171-173 | The filter keeps the list's order: it distributes over concatenation. The first-met tie-break of the suggestion relies on this. |
| Storage.Portals | src/services/storage.js:178 | Each matching shipment contributes its selected quote's portal. |
| Storage.SuggestedPortalIsMostUsed | src/services/storage.js:177-183 | The suggestion is a portal used for that country, and no portal was used more often there. Any portal first met before it was used strictly less often, so the first met wins a tie. |
| Storage.SuggestedPortalIgnoresCase | src/services/storage.js:172 | The country's case does not change the suggestion. |
| Storage.SameCountryIgnoresCase | src/services/storage.js:171-173 | The matching shipments do not depend on the country's case. |
| Storage.ConnectionStatus | src/services/storage.js:211-221 | The status is connected iff the probe answered, and disconnected iff no backend is configured. An error carries the probe's message. |
| Tracking.MockStatus | src/services/trackingService.js:48-71 | The code comes back as given, with the current time. The status is one of the four. The location is 'Customer Address' iff the status is 'Delivered'. |
| Tracking.MockStatusCases | src/services/trackingService.js:58-63 | 'DEL' gives Delivered, then 'EXC' Exception, then 'OUT' Out for Delivery, and any other code In Transit. Each holds in both directions. |
| Tracking.MockIgnoresCase | src/services/trackingService.js:59 | The code's case changes neither the status nor the location. |
| Tracking.MockDeliveredExample | src/services/trackingService.js:58-68 | 'del-123' is delivered to the customer's address, and 'xyz' is in transit. |
| Tracking.EventStatus | src/services/trackingService.js:24-29 | Event 40 gives Delivered, events 30 and 35 give Exception, and any other event gives In Transit (each iff). It never gives Out for Delivery. |
| Tracking.OrText | src/services/trackingService.js:34-35 | `x \|\| fallback` gives x when it is present and non-empty, and the fallback otherwise. |
| Tracking.TrackingStatus | src/services/trackingService.js:5-46 | The code comes back as given, and the status is one of the four. |
| Tracking.TrackingFallsBack | src/services/trackingService.js:7-45 | The mock rule answers whenever there is no key, the call throws, the answer is not ok, nothing is accepted, or the first entry has no track. |
| Tracking.TrackingUsesApi | src/services/trackingService.js:18-36 | With an accepted track, the event code alone decides the status. The location is never empty, and a missing time gives the current time. |
| Text.UpperOfLower | src/services/trackingService.js:59 | Upper-casing forgets the case the text was written in. |
| Text.LowerOfUpper | src/services/storage.js:172 | Lower-casing forgets the case the text was written in. |
| Text.LowerIdempotent | src/pages/Reports.jsx:107 | Lower-casing twice is lower-casing once. |
| Text.ContainsIffOccurs | src/pages/Reports.jsx:109-111 | `includes` holds iff the needle occurs at some position. |
| Text.ContainsEmpty | src/pages/Reports.jsx:107-111 | Every text includes the empty text. |
| Text.ParseFloatReading | src/pages/NewShipment.jsx:113 | `parseFloat` gives a number only for text holding a digit. It gives a negative number only when the first character after the white space is '-'. Text that starts with a digit always gives a number that is not negative. |
| Text.ParseNatText | src/pages/NewShipment.jsx:113 | `parseFloat` reads back the decimal text of any natural number. |
| Text.ParseSkipsSpace | src/pages/NewShipment.jsx:113 | Any leading white space `parseFloat` skips, such as a line terminator or a Unicode space separator, leaves the reading unchanged. |
| Text.ParseAfterIdeographicSpace | src/pages/NewShipment.jsx:113 | A number typed after an ideographic space (U+3000) still reads as that number. |
| Text.ParseNegative | src/pages/NewShipment.jsx:113 | A leading space and a minus sign give the negated number, so negative prices are eligible. |
| StableSort.Sort | src/pages/NewShipment.jsx:116 | The sorted list is a permutation of the input and ordered by the key. |
| StableSort.SortIsStable | src/pages/NewShipment.jsx:116 | Elements with equal keys keep their input order. |
| StableSort.SortHead | src/pages/NewShipment.jsx:117 | The first sorted element is the first element of minimal key. |
| StableSort.SortLast | src/pages/NewShipment.jsx:118 | The last sorted element is the last element of maximal key. |
| Tally.Bump | src/services/storage.js:177-181 | One `acc[k] = (acc[k] \|\| 0) + w` step adds at most one entry. BumpKeys, BumpExisting and BumpFresh say which one and where. |
| Tally.TallyOf | src/services/storage.js:193-197 | The accumulator has at most one entry per item, and at least one when there are items. |
| Tally.BumpKeys | src/pages/Reports.jsx:63-64 | A step keeps the keys and their order, and appends a new key at the end. |
| Tally.TallyDistinct | src/services/storage.js:177-181 | Each key appears once in a tally. |
| Tally.TallyKeySet | src/services/storage.js:177-181 | The tally's keys are exactly the items' keys. |
| Tally.TallyValue | src/services/storage.js:177-181 | Each key's value is the total weight of its items. |
| Tally.TallyTotal | src/pages/Reports.jsx:61-64 | The tally's values add up to the total weight. |
| Tally.TallyKeysGrow | src/pages/Reports.jsx:61-64 | The keys of a prefix's tally are a prefix of the whole tally's keys, so keys keep the order in which they were first met. |
| Tally.BumpExisting | src/pages/Reports.jsx:63-64 | Adding to a present key updates its entry in place. |
| Tally.BumpFresh | src/pages/Reports.jsx:63-64 | Adding to an absent key appends one entry. |

## Left out

- Rendering, routing, translations, `console` logging, `alert` and `window.confirm` are not modelled. They carry no logic.
- The Supabase client, `fetch`, `setTimeout`, `crypto.randomUUID` and `new Date()` are not modelled. Their results are parameters, and a fresh id is assumed not to be in the store already.
- JSON serialisation of the browser list is not modelled. The list is a sequence of records. An unparseable stored value is the `corrupt` flag.
- Storage.ShipmentStore.GetShipments: a stored value that parses but is not a list (such as `{}`) is returned as it is by `getShipments` (`src/services/storage.js:51-55`). The model's store holds only lists, so it does not cover this case.
- Quotes.QuoteForm.constructor starts from the corrected initial quotes, `Quotes.InitialQuotes`, not from the list as written (`src/pages/NewShipment.jsx:35-39`). The two differ only in the third quote's carrier, as `Quotes.InitialQuotesDifferInThirdCarrier` states. The as-written list is kept as `Quotes.InitialQuotesAsWritten` for the Findings row.
- A full browser storage quota is not modelled: `localStorage.setItem` never fails in the model.
- The remote table's ordering by `created_at` is the backend's job. `GetShipments` returns the rows in the order the backend gives them.
- Text.ParseFloat reads decimal text exactly as real numbers. Binary floating-point rounding and `Infinity` text are not modelled.
- Text.Lower and Text.Upper map only the ASCII letters. Unicode case mapping is not modelled.
- Storage.Round uses exact reals, so the floating-point error of `count / total * 100` is not modelled.
- Tally: a JavaScript object lists integer-like keys (such as a customer named "42") before the other keys. The model keeps plain insertion order.
- Tally and Reports.Accumulate treat every name as an ordinary key. The source keeps its accumulators in plain objects (`src/pages/Reports.jsx:63-64`, `src/services/storage.js:177-181, 193-197`). A key such as "toString", "constructor", "valueOf" or "hasOwnProperty" finds an inherited function there, so its entry becomes a text like "function …" and never wins the comparisons of `src/pages/Reports.jsx:73-81`. A key "__proto__" never appears in `Object.entries`. The model does not capture these prototype effects.
- Storage.Merged: a field present in the patch with the value `undefined` overrides the stored field in the source. In the model only fields that have a value override.
- Reports: `toFixed(2)` display strings are not modelled. A `Standing` carries the customer's name and exact profit.
- Quotes: the form's text fields loaded for editing (`src/pages/NewShipment.jsx:51-57`) are not part of `QuoteForm`. `Submit` takes them as a `FormData` value.
- Quotes: the portal suggestion shown on the form (`src/pages/NewShipment.jsx:69-77`) only displays `getSuggestedPortal`, which is modelled as `Storage.SuggestedPortal`.
- Storage.SuggestedPortal and Storage.Stats take the list `getShipments` returns as a parameter. They state what each computes from that list, whatever the store's state was.
- Tracking: 17TRACK answers are reduced to the fields the service reads (`z1`, `z0.z`, `z0.a`). Any failure to read them counts as a thrown call.
- src/pages/Dashboard.jsx, the UI components, src/App.jsx and tailwind.config.js are not part of this model.

## Findings

| source | as written | input that shows it | evidently intended | confidence | as-written member | corrected member |
|---|---|---|---|---|---|---|
| src/pages/NewShipment.jsx:35-39 | The third initial quote pairs portal 'My DHL' with carrier 'TNT' (`ALL_CARRIERS[0]`). | A fresh form. Quote 3 has portal 'My DHL', which allows only 'DHL', but its carrier is 'TNT'. The portal-change reset never runs for it. | Each initial quote takes the first carrier its portal allows, so quote 3 gets 'DHL'. | not executed | Quotes.InitialQuotesAsWrittenBreakRule | Quotes.InitialQuotes |
