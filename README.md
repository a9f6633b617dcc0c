# Omnishop dashboard — a Dafny model of its page logic

Omnishop is an admin dashboard for small online sellers. It has an
appointment calendar, product and customer tables, dashboard cards and a few
"Omni" widgets. Every page reads and writes a hosted backend. This project
models what the pages themselves decide once that backend is put aside:

- which rows are shown;
- how the counters and labels are computed;
- what each form turns into when it is submitted;
- how each page's state changes from one event to the next.

Modules, one per page or component:

- `Common`: the JavaScript idioms the pages share, written out:
  - `x || ""` and `x || null`;
  - `Array.filter`, `reduce` and `includes`;
  - `toLowerCase` (ASCII and Latin-1);
  - `trim() === ""`;
  - the decimal rendering of a count.
- `Session`: the session and its user metadata; the `full_name || "Vendeur"` display name.
- `Store`: a backend table as a map from row id to row. An insert, an update by id and a delete by id each touch one row only.
- `CalendarGrid`: the month grid. Days are integer ordinals, ordinal 0 is a Monday, and the weekday is `d % 7`.
- `Calendar` (`app/calendar/page.tsx`): the pure lookups, plus the `CalendarPage` class.
- `Inventory` (`app/inventory/page.tsx`) and `Customers` (`app/customers/page.tsx`).
- `InventoryOverview` (`components/dashboard/inventory-overview.tsx`).
- `StatsCards` (`components/dashboard/stats-cards.tsx`).
- `OmniAds` (`app/omni-ads/page.tsx`).
- `RelationClient` (`components/omni-ia/relation-client-module.tsx`).
- `Marketing` (`components/omni-ia/marketing-module.tsx`).
- `Onboarding` (`app/page.tsx`).

How the pages are modelled:

- **Pages with state are classes.** Each React `useState` becomes a field. Each handler becomes a method that says its whole new state.
- **Backend calls are recorded, not performed.** The mutations a page sends are appended to its `issued` field. What a query returns is passed to the method as `Option<seq<...>>`, where `None` means the query returned no data and the page keeps its old list.
- **Tables are maps.** The `Apply` function of each page gives the effect of a recorded mutation on a `Store.Table`. The round-trip lemmas are stated against it.
- **Timers are queues.** A `setTimeout` callback is a request stored in a `pending` queue, holding the values its closure captured. A `TimerFires` method runs the oldest one.
- **Browser input is passed in.** `confirm(...)` is a `bool` parameter. `parseFloat`, `parseInt`, `toString` and `toFixed` are function parameters. Money is `real`.

## Model

| member | source | states |
|---|---|---|
| Common.OrEmpty | app/calendar/page.tsx:198-205 | `x \|\| ""` is "" exactly when x is null or "", and x otherwise |
| Common.NullIfEmpty | app/calendar/page.tsx:221-224 | `s \|\| null` is null exactly when s is "", and s otherwise |
| Common.NullableRoundTrip | app/inventory/page.tsx:104-131 | prefilling a nullable column and writing it back gives the column again, except that "" comes back as null |
| Common.Filter | app/calendar/page.tsx:157 | `filter` keeps exactly the elements that satisfy the predicate, as a subsequence, in order |
| Common.FilterMultiplicity | app/calendar/page.tsx:157 | `filter` keeps each accepted element as many times as it occurs, and drops the others entirely |
| Common.Count | app/inventory/page.tsx:170-171 | `filter(p).length` is at most the length, and is 0 exactly when no element satisfies p |
| Common.CountMonotone | app/inventory/page.tsx:170-171 | a weaker predicate counts at least as many rows |
| Common.SumSplit | app/calendar/page.tsx:160-163 | a sum splits over a filter and its complement |
| Common.LowerChar | app/inventory/page.tsx:165 | `toLowerCase` turns each capital (A–Z, À–Þ without ×) into its small letter, 32 code points higher, and leaves every other character alone |
| Common.Lower | app/inventory/page.tsx:165 | `toLowerCase` maps each character and keeps the length |
| Common.ContainsIff | app/inventory/page.tsx:165 | `includes` holds exactly when the needle occurs at some position |
| Common.ContainsInfix | components/omni-ia/marketing-module.tsx:22-24 | a template string includes every piece it interpolates |
| Common.EmptyTermMatches | app/inventory/page.tsx:164-166 | the empty search term matches every name |
| Common.SearchIgnoresTermCase | app/customers/page.tsx:153-155 | a search term and its lower-cased form match the same names |
| Common.SearchIgnoresCase | app/customers/page.tsx:153-155 | names that differ only in letter case, searched with terms that differ only in letter case, match alike |
| Common.CapitalMatchesSmall | app/customers/page.tsx:153-155 | "Bob" and "bob" lower-case alike, and each matches the other's prefix in either case |
| Common.SearchMatchOccurs | app/customers/page.tsx:153-155 | a match means the lower-cased term occurs in the lower-cased name |
| Common.NatToString | components/dashboard/stats-cards.tsx:107 | `${n}` is a non-empty string of digits, with no leading zero unless n is 0 |
| Common.NatToStringRoundTrip | components/dashboard/stats-cards.tsx:107 | reading the digits of `${n}` back gives n |
| Session.DisplayName | app/page.tsx:33 | a non-empty text `full_name` is shown as it is; otherwise "Vendeur" is shown; the name is never empty |
| Store.Insert | app/calendar/page.tsx:234-236 | an insert adds the new id with its row and leaves every existing row alone |
| Store.Update | app/calendar/page.tsx:228-231 | an update by id rewrites that row only and keeps the set of ids |
| Store.Delete | app/calendar/page.tsx:245 | a delete by id removes that id and leaves every other row alone |
| CalendarGrid.Weekday | app/calendar/page.tsx:151-154 | the weekday of a day ordinal lies between 0 (Monday) and 6 (Sunday) |
| CalendarGrid.StartOfWeek | app/calendar/page.tsx:152 | the start of the week is a Monday within the six days before d |
| CalendarGrid.EndOfWeek | app/calendar/page.tsx:153 | the end of the week is a Sunday within the six days after d |
| CalendarGrid.WeekBounds | app/calendar/page.tsx:152-153 | the start of the week lies on a multiple of seven, and the end of the week six days later |
| CalendarGrid.GridWholeWeeks | app/calendar/page.tsx:151-154 | the grid's length is a multiple of 7, with 4 to 6 weeks |
| CalendarGrid.GridSpan | app/calendar/page.tsx:151-154 | the grid is consecutive days from the Monday on or before the 1st to the Sunday on or after the last day, and covers every day of the month |
| CalendarGrid.GridRows | app/calendar/page.tsx:151-154 | the grid has 28, 35 or 42 days |
| Calendar.DayAppointments | app/calendar/page.tsx:156-158 | the day index holds exactly the appointments dated that day, in fetched order |
| Calendar.DayAppointmentsExact | app/calendar/page.tsx:156-158 | each appointment of the day is kept as often as it was fetched; other days' appointments are not kept |
| Calendar.RevenueOrZero | app/calendar/page.tsx:162 | `potential_revenue \|\| 0`: a null revenue counts as 0 |
| Calendar.DayTotalRevenue | app/calendar/page.tsx:160-163 | a day without appointments totals 0; with non-negative revenues on that day the total is non-negative |
| Calendar.EmptyDayTotal | app/calendar/page.tsx:160-163 | a day without appointments has an empty index and a total of 0 |
| Calendar.DayTotalSplitsRevenue | app/calendar/page.tsx:160-163 | all fetched revenue is the day's total plus the revenue of the other days (null counted as 0) |
| Calendar.DayTotalBounds | app/calendar/page.tsx:160-163 | with non-negative revenues, the day total lies between 0 and the month's total |
| Calendar.StatusColor | app/calendar/page.tsx:165-175 | each of the six labels the status select can store gets its own fixed classes; any other plain label gets the gray fallback |
| Calendar.StatusColorsDistinct | app/calendar/page.tsx:166-173 | different labels get different classes |
| Calendar.EditFormDefaults | app/calendar/page.tsx:194-208 | the edit prefill turns null customer, product, revenue, location and notes into ""; the duration is 30 exactly when it was missing, 0 or 30; time and status are copied |
| Calendar.EditForm | app/calendar/page.tsx:194-206 | the edit prefill of the form from an appointment (its defaults: Calendar.EditFormDefaults; its round trip: Calendar.UnchangedEditIsIdempotent) |
| Calendar.ParsedRevenue | app/calendar/page.tsx:220 | `parseFloat(field) \|\| 0`: a field that does not parse gives 0 |
| Calendar.BuildPayload | app/calendar/page.tsx:215-225 | the payload is dated with the selected day; empty optional strings become null; the revenue is parsed |
| Calendar.EmptyRevenueStoresZero | app/calendar/page.tsx:220 | an empty revenue field is stored as 0 |
| Calendar.SubmitMutation | app/calendar/page.tsx:213-237 | with no selected day, nothing is sent; otherwise an update keyed by the edited appointment's id, or an insert stamped with the seller id |
| Calendar.EditWritesSelectedDay | app/calendar/page.tsx:213-231 | an edit writes the selected day's date, never the appointment's own date |
| Calendar.EditWithoutSelectedDayIsLost | app/calendar/page.tsx:213 | an edit opened before any day was clicked sends nothing |
| Calendar.DeleteMutation | app/calendar/page.tsx:243-245 | delete sends a delete by the edited appointment's id, and nothing when no appointment is being edited |
| Calendar.Apply | app/calendar/page.tsx:227-245 | an insert adds the new row with the payload and the seller; an update rewrites the payload and keeps the owning seller; a delete removes the id; every other row is unchanged |
| Calendar.CreateStoresSubmittedFields | app/calendar/page.tsx:215-236 | a create stores exactly the submitted fields under the new id, dated with the selected day and owned by the seller; no other row changes |
| Calendar.DeleteRemovesRow | app/calendar/page.tsx:243-245 | deleting the edited appointment removes its row and nothing else |
| Calendar.UnchangedEditIsIdempotent | app/calendar/page.tsx:194-231 | saving an unchanged edit on the appointment's own day leaves the table as it was, provided revenue and duration are not null, revenue prints and parses back, the duration is not 0 and no text column holds "" |
| Calendar.UnchangedEditMovesToSelectedDay | app/calendar/page.tsx:194-231 | the same unchanged edit saved while another day is selected moves the appointment to that day |
| Calendar.SelectorFilterMatchesNothing | app/calendar/page.tsx:128-133 | the product selector's `eq 0` and `gt 0` filter matches no stock level |
| Calendar.CalendarPage.constructor | app/calendar/page.tsx:53-72 | initial state: empty lists, no selected day, modal closed, loading, the default form |
| Calendar.CalendarPage.FetchData | app/calendar/page.tsx:89-140 | each list is replaced by its query's rows or kept when there are none; loading ends; nothing else changes |
| Calendar.CalendarPage.DayClick | app/calendar/page.tsx:177-192 | a day click selects the day, resets every form field to its default, clears the edited appointment and opens the modal |
| Calendar.CalendarPage.EditAppointment | app/calendar/page.tsx:194-208 | edit prefills the form, sets the edited appointment and opens the modal; the selected day is unchanged |
| Calendar.CalendarPage.CloseModal | app/calendar/page.tsx:410 | cancel closes the modal and changes nothing else |
| Calendar.CalendarPage.Submit | app/calendar/page.tsx:210-241 | with no selected day, nothing changes; otherwise the mutation is logged, the modal closes and the data is fetched again |
| Calendar.CalendarPage.DeleteAppointment | app/calendar/page.tsx:243-248 | when not editing, nothing changes; otherwise the delete is logged, the modal closes and the data is fetched again |
| Inventory.GetStockStatus | app/inventory/page.tsx:157-162 | the status is "Rupture" iff stock is 0; "Critique" iff stock is below 10 and not 0 (negatives included); "Faible" iff stock is 10 to 49; "En stock" from 50 |
| Inventory.StockTextColor | app/inventory/page.tsx:424-428 | the stock figure is red exactly on "Rupture" rows and orange exactly on "Critique" rows |
| Inventory.StockStatusMonotone | app/inventory/page.tsx:157-162 | for non-negative stock, more stock never gives a worse status |
| Inventory.StockLabelsDistinct | app/inventory/page.tsx:157-162 | the four statuses have four different labels and colours |
| Inventory.FilteredProducts | app/inventory/page.tsx:164-166 | the search keeps exactly the products whose lower-cased name includes the lower-cased term, in order |
| Inventory.EmptySearchKeepsAll | app/inventory/page.tsx:164-166 | the empty search keeps every product |
| Inventory.SearchCaseInsensitive | app/inventory/page.tsx:164-166 | the term's letter case does not change the result |
| Inventory.TotalValueNonNegative | app/inventory/page.tsx:169 | with non-negative prices and stocks, the stock value is non-negative |
| Inventory.TotalValue | app/inventory/page.tsx:169 | the stock value, the sum of price × stock over all products (its sign: Inventory.TotalValueNonNegative) |
| Inventory.OutOfStockCount | app/inventory/page.tsx:170 | at most the number of products, and 0 exactly when no product has stock 0 |
| Inventory.LowStockCount | app/inventory/page.tsx:171 | at most the number of products, and 0 exactly when every product has 10 or more in stock |
| Inventory.CountersOrdered | app/inventory/page.tsx:168-171 | outOfStock ≤ lowStock ≤ totalProducts |
| Inventory.CountersMatchLabels | app/inventory/page.tsx:157-171 | outOfStock counts the "Rupture" rows; lowStock counts the "Rupture" and "Critique" rows |
| Inventory.BuildPayload | app/inventory/page.tsx:127-134 | the payload carries the name, the parsed price and stock, null for an empty description or image, and the seller id |
| Inventory.PrefillForm | app/inventory/page.tsx:102-110 | the edit prefill of the form from a product (its round trip: Inventory.UnchangedEditIsIdempotent) |
| Inventory.SubmitMutation | app/inventory/page.tsx:136-145 | submit sends an update by the edited product's id, else an insert; both carry the payload with the seller id |
| Inventory.DeleteMutation | app/inventory/page.tsx:151-153 | a delete by id is sent exactly when the user confirmed |
| Inventory.Apply | app/inventory/page.tsx:136-153 | an insert adds the new row with the payload; an update replaces that row's columns; a delete removes the id; every other row is unchanged |
| Inventory.UnchangedEditIsIdempotent | app/inventory/page.tsx:100-145 | saving an unchanged product as the user who owns it leaves its row as it was, provided price and stock print and parse back and no text column holds "" |
| Inventory.DeleteOnlyWhenConfirmed | app/inventory/page.tsx:151-155 | a declined delete sends nothing; a confirmed one removes that row only |
| Inventory.InventoryPage.constructor | app/inventory/page.tsx:56-69 | initial state: no products, loading, modal closed, empty form and search |
| Inventory.InventoryPage.FetchProducts | app/inventory/page.tsx:85-98 | the list is replaced by the rows, or kept when there are none; loading ends |
| Inventory.InventoryPage.OpenModal | app/inventory/page.tsx:100-121 | with a product, the form is prefilled and the product is the edited one; without one, the form is blank and no product is edited; the modal opens either way |
| Inventory.InventoryPage.Submit | app/inventory/page.tsx:123-149 | the mutation is logged, the modal closes and the list is fetched again |
| Inventory.InventoryPage.Delete | app/inventory/page.tsx:151-155 | a declined delete changes nothing; a confirmed one logs the delete and fetches again, leaving the modal as it was |
| Inventory.InventoryPage.SetSearchTerm | app/inventory/page.tsx:359 | typing changes the search term only |
| Inventory.InventoryPage.CloseModal | app/inventory/page.tsx:260 | cancel closes the modal only |
| Customers.OrdersOrZero | app/customers/page.tsx:158 | `total_orders \|\| 0` |
| Customers.IsVip | app/customers/page.tsx:367 | a customer is a VIP exactly when a recorded order count of 5 or more exists; no count means not VIP |
| Customers.StatusBadge | app/customers/page.tsx:367-416 | the badge reads "VIP" with the purple classes exactly for customers with 5 or more orders, and "Actif" otherwise |
| Customers.OrdersBadgeColor | app/customers/page.tsx:403-408 | the orders badge is highlighted exactly for VIPs |
| Customers.FilteredCustomers | app/customers/page.tsx:153-155 | the search keeps exactly the customers whose lower-cased name includes the lower-cased term, in order |
| Customers.EmptySearchKeepsAll | app/customers/page.tsx:153-155 | the empty search keeps every customer |
| Customers.SearchCaseInsensitive | app/customers/page.tsx:153-155 | the term's letter case does not change the result |
| Customers.TotalOrders | app/customers/page.tsx:158 | the total of the order counts, null as 0; non-negative when no count is negative |
| Customers.VipCount | app/customers/page.tsx:159 | at most the number of customers, and 0 exactly when no customer is a VIP |
| Customers.VipsBoundedByOrders | app/customers/page.tsx:157-159 | with no negative order counts, 5 × vipCustomers ≤ totalOrders |
| Customers.BuildPayload | app/customers/page.tsx:124-130 | an empty WhatsApp, Instagram or address becomes null and a non-empty one is written as typed; the name and the seller id are copied |
| Customers.PrefillForm | app/customers/page.tsx:101-108 | the edit prefill of the form from a customer (its round trip: Customers.UnchangedEditIsIdempotent) |
| Customers.SubmitMutation | app/customers/page.tsx:132-141 | submit sends an update by id without `total_orders`, or an insert with `total_orders` 0 |
| Customers.DeleteMutation | app/customers/page.tsx:147-149 | a delete by id is sent exactly when the user confirmed |
| Customers.Apply | app/customers/page.tsx:132-149 | an insert adds the new row with the payload and its order count; an update rewrites the contact columns and keeps the order count; a delete removes the id; every other row is unchanged |
| Customers.EditKeepsOrders | app/customers/page.tsx:132-136 | an edit rewrites the contact columns and never the order count |
| Customers.NewCustomerIsNotVip | app/customers/page.tsx:138-141 | a created customer has 0 orders and shows "Actif" |
| Customers.UnchangedEditIsIdempotent | app/customers/page.tsx:99-136 | saving an unchanged customer leaves the row as it was, provided no contact column holds "" |
| Customers.DeleteOnlyWhenConfirmed | app/customers/page.tsx:147-151 | a declined delete sends nothing; a confirmed one removes that row only |
| Customers.CustomersPage.constructor | app/customers/page.tsx:56-68 | initial state: no customers, loading, modal closed, empty form and search |
| Customers.CustomersPage.FetchCustomers | app/customers/page.tsx:84-97 | the list is replaced by the rows, or kept when there are none; loading ends |
| Customers.CustomersPage.OpenModal | app/customers/page.tsx:99-118 | with a customer, the form is prefilled and the customer is the edited one; without one, the form is blank; the modal opens either way |
| Customers.CustomersPage.Submit | app/customers/page.tsx:120-145 | the mutation is logged, the modal closes and the list is fetched again |
| Customers.CustomersPage.Delete | app/customers/page.tsx:147-151 | a declined delete changes nothing; a confirmed one logs the delete and fetches again |
| Customers.CustomersPage.SetSearchTerm | app/customers/page.tsx:329 | typing changes the search term only |
| Customers.CustomersPage.CloseModal | app/customers/page.tsx:236 | cancel closes the modal only |
| InventoryOverview.Percent | components/dashboard/inventory-overview.tsx:66 | `Math.round(stock / maxStock * 100)` read on exact rationals: the integer p with 2·max·p ≤ 200·stock + max < 2·max·(p+1), halves rounded up |
| InventoryOverview.PercentIsNearest | components/dashboard/inventory-overview.tsx:66 | the percent is within ½ of the exact ratio |
| InventoryOverview.PercentInRange | components/dashboard/inventory-overview.tsx:14-19 | a stock between 0 and the maximum gives a percent from 0 to 100 |
| InventoryOverview.StockLabel | components/dashboard/inventory-overview.tsx:28-32 | "Critical" below 15, "Low" from 15 to 39, "In Stock" from 40 |
| InventoryOverview.StockColor | components/dashboard/inventory-overview.tsx:22-26 | the bar colour by the same 15 and 40 thresholds (paired with the label by InventoryOverview.ColorsFollowLabel) |
| InventoryOverview.StockLabelColor | components/dashboard/inventory-overview.tsx:34-38 | the label's text colour by the same thresholds (paired with the label by InventoryOverview.ColorsFollowLabel) |
| InventoryOverview.ColorsFollowLabel | components/dashboard/inventory-overview.tsx:22-38 | Critical pairs with `bg-destructive`/`text-destructive`, Low with `bg-warning`/`text-warning`, In Stock with `bg-primary`/`text-muted-foreground` |
| InventoryOverview.LabelMonotone | components/dashboard/inventory-overview.tsx:28-32 | a higher percent never gets a worse label |
| InventoryOverview.SlotAt | components/dashboard/inventory-overview.tsx:53-91 | a slot with no item is a placeholder; an item's row shows its percent, label and colours, and only slot 3 is blurred |
| InventoryOverview.Slots | components/dashboard/inventory-overview.tsx:42-53 | exactly four slots are rendered |
| InventoryOverview.CardData | components/dashboard/inventory-overview.tsx:13-20 | on the card's data the rows read 68 In Stock, 30 Low, 12 Critical, and 62 In Stock blurred |
| InventoryOverview.ShortDataIsPadded | components/dashboard/inventory-overview.tsx:53-64 | with fewer than four items the rest are placeholders, and no shown item is blurred |
| StatsCards.UpperChar | components/dashboard/stats-cards.tsx:80 | `toUpperCase` on one character: small Latin letters become the capitals that lower-case back to them; every other character is unchanged |
| StatsCards.Capitalize | components/dashboard/stats-cards.tsx:80 | the first character is upper-cased and the rest is unchanged |
| StatsCards.CapitalizedDateUnchanged | components/dashboard/stats-cards.tsx:79-80 | a `d MMMM` date starts with a digit, so capitalising it changes nothing |
| StatsCards.AppointmentValue | components/dashboard/stats-cards.tsx:107 | "Aucun" iff the count is 0; otherwise decimal digits that read back as the count |
| StatsCards.ChangeText | components/dashboard/stats-cards.tsx:108 | the date and a space, then the revenue suffix exactly when the revenue is positive |
| StatsCards.PotentialRevenue | components/dashboard/stats-cards.tsx:73 | the sum of the fetched revenues, null as 0 (its sign: StatsCards.SuffixShownIffSomeRevenue) |
| StatsCards.SuffixShownIffSomeRevenue | components/dashboard/stats-cards.tsx:71-74 | with non-negative revenues, the total is positive exactly when some appointment has positive revenue |
| StatsCards.StatsCard.constructor | components/dashboard/stats-cards.tsx:60-61 | both figures start at 0 |
| StatsCards.StatsCard.OnFetched | components/dashboard/stats-cards.tsx:71-74 | the count is the number of rows and the revenue is their sum (null as 0); with no data both are unchanged |
| OmniAds.TemplateIds | app/omni-ads/page.tsx:25-34 | the template ids are 1 to 8 in order, so distinct |
| OmniAds.NextIndex | app/omni-ads/page.tsx:83-86 | next adds one and wraps from the last index to 0 |
| OmniAds.PrevIndex | app/omni-ads/page.tsx:78-81 | prev subtracts one and wraps from 0 to the last index |
| OmniAds.ArrowsInverse | app/omni-ads/page.tsx:78-86 | next then prev, and prev then next, restore the index |
| OmniAds.NextTimes | app/omni-ads/page.tsx:83-86 | any number of nexts stays in range |
| OmniAds.NextTimesIsModular | app/omni-ads/page.tsx:83-86 | k nexts move k places round the ring; one full turn returns to the start |
| OmniAds.OmniAdsPage.constructor | app/omni-ads/page.tsx:39-43 | initial state: index 0, no template, no image, not generating, no results |
| OmniAds.OmniAdsPage.SyncEffect | app/omni-ads/page.tsx:88-90 | the selected template is the one at the index |
| OmniAds.OmniAdsPage.Next | app/omni-ads/page.tsx:83-86 | next wraps the index forward and selects that template's id |
| OmniAds.OmniAdsPage.Prev | app/omni-ads/page.tsx:78-81 | prev wraps the index back and selects that template's id |
| OmniAds.OmniAdsPage.UploadImage | app/omni-ads/page.tsx:58-67 | the reader's data URL becomes the selected image |
| OmniAds.OmniAdsPage.RemoveImage | app/omni-ads/page.tsx:153 | removing the image clears it and disables generate |
| OmniAds.OmniAdsPage.GenerateEnabled | app/omni-ads/page.tsx:199 | the generate button is enabled with an image, a template and no generation running (disabled after a removal: OmniAds.OmniAdsPage.RemoveImage) |
| OmniAds.OmniAdsPage.Generate | app/omni-ads/page.tsx:69-76 | without an image or a template nothing happens; otherwise generation starts and a timer holding the image is set |
| OmniAds.OmniAdsPage.TimerFires | app/omni-ads/page.tsx:72-75 | the results become six copies of the captured image and generation ends |
| OmniAds.GenerateThenFire | app/omni-ads/page.tsx:69-76 | an enabled click followed by its timer gives six copies of the image selected at the click |
| RelationClient.FindClient | components/omni-ia/relation-client-module.tsx:31 | `find` returns the first client with the id, and nothing when no client has it |
| RelationClient.ClickedClientIsFound | components/omni-ia/relation-client-module.tsx:14-19 | every listed client is found by its own id |
| RelationClient.RelationClientWidget.constructor | components/omni-ia/relation-client-module.tsx:10-12 | no client selected, empty message, empty log |
| RelationClient.RelationClientWidget.SendEnabled | components/omni-ia/relation-client-module.tsx:120 | the send button is enabled with a selected client and a message that is not blank (used by RelationClient.SendToListedClient) |
| RelationClient.RelationClientWidget.SentCount | components/omni-ia/relation-client-module.tsx:62 | the sent-messages counter is the length of the log (raised by one per send: RelationClient.SendToListedClient) |
| RelationClient.RelationClientWidget.SelectClient | components/omni-ia/relation-client-module.tsx:86 | a click selects that client's id |
| RelationClient.RelationClientWidget.SetMessage | components/omni-ia/relation-client-module.tsx:115 | typing sets the message |
| RelationClient.RelationClientWidget.SendMessage | components/omni-ia/relation-client-module.tsx:28-39 | with no client, a blank message or an unknown id, nothing changes; otherwise exactly one entry is appended, with the client's name and the untrimmed message, earlier entries are kept, and the input is cleared |
| RelationClient.SendToListedClient | components/omni-ia/relation-client-module.tsx:28-62 | sending a non-blank message to a listed client logs it and raises the sent counter by one |
| Marketing.TopicOr | components/omni-ia/marketing-module.tsx:22-24 | `topic \|\| fallback` |
| Marketing.EmailText | components/omni-ia/marketing-module.tsx:22 | the e-mail template with its subject, product phrase and signature (signed: Marketing.EmailSignedByUser) |
| Marketing.PostText | components/omni-ia/marketing-module.tsx:23 | the post template with its headline (topic shown: Marketing.TopicAppearsVerbatim) |
| Marketing.SmsText | components/omni-ia/marketing-module.tsx:24 | the SMS template with its offer (topic shown: Marketing.TopicAppearsVerbatim) |
| Marketing.GeneratedText | components/omni-ia/marketing-module.tsx:21-26 | the text is non-empty exactly for email, post and sms; an unknown type gives "" |
| Marketing.EmailSignedByUser | components/omni-ia/marketing-module.tsx:22 | every e-mail ends with the user's name |
| Marketing.EmptyTopicUsesDefaults | components/omni-ia/marketing-module.tsx:22-24 | an empty topic reads as the template's own default phrase |
| Marketing.TopicAppearsVerbatim | components/omni-ia/marketing-module.tsx:22-24 | a non-empty topic, even one of spaces only, appears verbatim in each template |
| Marketing.MarketingWidget.constructor | components/omni-ia/marketing-module.tsx:11-14 | initial state: type "email", empty topic and content, not generating |
| Marketing.MarketingWidget.GenerateEnabled | components/omni-ia/marketing-module.tsx:74 | generate is enabled when nothing is running and the topic is not blank (its effect: Marketing.GenerateThenFire) |
| Marketing.MarketingWidget.RegenerateShown | components/omni-ia/marketing-module.tsx:81 | the regenerate button is shown once some content is generated |
| Marketing.MarketingWidget.RegenerateEnabled | components/omni-ia/marketing-module.tsx:99 | regenerate is enabled whenever nothing is running, whatever the topic |
| Marketing.MarketingWidget.SelectType | components/omni-ia/marketing-module.tsx:49-53 | a type button sets the content type |
| Marketing.MarketingWidget.SetTopic | components/omni-ia/marketing-module.tsx:67 | typing sets the topic |
| Marketing.MarketingWidget.Generate | components/omni-ia/marketing-module.tsx:16-20 | generation starts and a timer holding the type and topic is set |
| Marketing.MarketingWidget.TimerFires | components/omni-ia/marketing-module.tsx:20-28 | the content becomes the captured request's text and generation ends |
| Marketing.GenerateThenFire | components/omni-ia/marketing-module.tsx:16-99 | an enabled generate shows a text that contains the topic and can be regenerated |
| Onboarding.OnlyStrictTrueSkipsOnboarding | app/page.tsx:35-37 | only the boolean `true` skips onboarding; `false` and the text "true" do not |
| Onboarding.NeedsOnboarding | app/page.tsx:35-37 | missing metadata asks for onboarding; only a stored boolean `true` skips it |
| Onboarding.ApplyUpdate | app/page.tsx:49-55 | the metadata write sets the three keys and keeps the name |
| Onboarding.DashboardPage.constructor | app/page.tsx:16-23 | initial state: not authorised, no modal, empty choices, not saving |
| Onboarding.DashboardPage.CurrentView | app/page.tsx:61-74 | the loading view is shown exactly while not authorised |
| Onboarding.DashboardPage.IsFormComplete | app/page.tsx:69 | the form is complete once a listed platform and a listed focus are chosen, and incomplete while either is empty |
| Onboarding.DashboardPage.SubmitEnabled | app/page.tsx:141 | submit is enabled exactly when nothing is being saved and the form is complete |
| Onboarding.DashboardPage.CheckAuth | app/page.tsx:25-43 | with no session, redirect and stay unauthorised; otherwise set the display name, show the modal unless onboarding is strictly completed, and authorise |
| Onboarding.DashboardPage.SelectPlatform | app/page.tsx:97 | a platform click sets a non-empty platform |
| Onboarding.DashboardPage.SelectFocus | app/page.tsx:123 | a focus click sets a non-empty focus |
| Onboarding.DashboardPage.StartCompleteOnboarding | app/page.tsx:47-55 | saving starts, which disables submit, and the write with `onboarding_completed` true, the platform and the focus is sent |
| Onboarding.DashboardPage.FinishCompleteOnboarding | app/page.tsx:57-58 | the modal closes and saving ends |
| Onboarding.ChoosingBothEnablesSubmit | app/page.tsx:69-141 | choosing one platform and one focus while nothing is saved enables submit |
| Onboarding.NoSessionStaysLoading | app/page.tsx:29-30 | without a session the page redirects and stays on the loading view |
| Onboarding.CompleteThenRevisit | app/page.tsx:35-58 | completing onboarding stores the platform and focus, and the next visit shows no modal |

## Left out

- Backend and authentication calls are not modelled. What a query returns is a method parameter. The mutations a page sends are recorded, and their effect is given by `Apply` on an abstract table. Query ordering (`order(...)`), the `seller_id` filters, row-level security and network failures are not modelled.
- Fetch races are not modelled. The pages do not await their fetches in order, so an older response can overwrite a newer one.
- The intermediate `isLoading = true` state inside a fetch is not modelled. Each fetch is one step.
- Dates are day ordinals. The `yyyy-MM-dd` strings are not modelled, and neither are date-fns or the `fr` locale formatting. Stored dates are assumed to be canonical, so equal strings mean equal days. Today's date and the current month come from the clock and are parameters.
- The calendar's month navigation (`handlePrevMonth`, `handleNextMonth`) and its time-string display are not modelled. They are date arithmetic on `Date` objects.
- Number handling is abstract:
  - `parseFloat`, `parseInt`, `toString` and `toFixed` are function parameters;
  - money is `real`, not IEEE doubles;
  - NaN prices and stocks become `None` in the product payload.
- `InventoryOverview.Percent`: the percent is computed on exact rationals, not IEEE doubles. Where the double quotient falls just below a half (29 of 200 gives 14.499999999999998), the source rounds down and this model rounds up, so its percent is one higher (15 "Low" instead of 14 "Critical"). It also requires `maxStock > 0`. A maximum of 0 would give `Infinity` or `NaN` in the source. Every listed item has a positive maximum.
- `Common.LowerChar` and `StatsCards.UpperChar` cover ASCII and Latin-1 only. `ß`, `ÿ` and other scripts are not case-mapped here.
- `Session.DisplayName`: a `full_name` that is truthy but not a string is shown as the placeholder name here; the source would show that value.
- The calendar's `duration_minutes` is an integer in the form, so `parseInt(duration.toString())` is modelled as the identity.
- Timers are not modelled as time. A timer fires only when its turn in the `pending` queue comes, and the delays (2000 ms, 1500 ms) are not modelled.
- The following browser calls are not modelled: clipboard copy, `FileReader` reading, `router.push` (recorded only as `redirectedToLogin`), `window.location` and `alert`.
- The relation-client widget's suggested-message lookup and its static counters are not modelled. They are display text only.
- Looking up a content type that names an `Object.prototype` member (such as "toString") is not modelled. Only the three type buttons set the content type.
- `Calendar.StatusColor`: a status that names an `Object.prototype` member ("toString", "constructor") would get that member from the lookup rather than the gray fallback; this is not modelled, as the status select only writes the six labels.
- JSX layout and CSS classes are not modelled, apart from the colour lookups in the table above.
