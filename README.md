# Smart Brick dashboard — verified model of its data and view logic

Smart Brick is a client-side real-estate dashboard. It covers property listings, a team hierarchy of
members and sub-members, commission tracking and messaging. All data lives in three in-memory
record stores seeded from mock JSON. This project models in Dafny the part of the dashboard that
has logic of its own, and proves what that logic promises:

- **The three stores** (`CommissionService`, `PropertyService`, `UserService`). Each is a class
  holding a `seq<Record>` that its methods change in place. `create` gives the new record the next
  `Id` (the largest `Id` plus one). `update` shallow-merges a patch into the first record with that
  `Id`. `delete` removes that record. A missing `Id` is an `Err` with the store's "not found"
  message and changes nothing.
- **Records**. A record is a `map<string, Value>` of JSON values (`Json`). Object spread
  `{ ...a, ...b }` is right-biased map union, so a caller's fields override the generated `Id`,
  and the store's timestamps override the caller's fields.
- **Commission arithmetic**. The sale-recording workflow stores 5% of the sale, split 60/40
  between member and sub-member, and then marks the property sold (`CommissionsPage`). The
  calculator widget scales the rate table by `/ 0.05` (`CommissionCalculator`).
- **Derived views**. These are the property filter and its four sort modes (`PropertiesPage`),
  the commission history filter and the earnings sums (`CommissionsPage`), the team list, its
  filter and its counts (`TeamPage`), and the dashboard metrics (`Dashboard`).
- **UI state transitions**. These cover the search panel's filter record (`SearchFilters`),
  sending and reading messages (`MessagesPage`), the image gallery and the status actions of the
  detail page (`PropertyDetailPage`), and the phone formatter and colour lookups (`Formatters`).
  They are written as old-state to new-state functions.
- **Constant tables** (`Constants`): categories, statuses, roles, commission rates and price
  buckets.

Shared definitions live in `Json` (values, spread, `Number` coercion), `Text` (ASCII case
folding, `includes`, `trim`, digit stripping, decimal text),
`Seqs` (order-preserving filter and its lemmas), `Sorting` (a stable sort by a numeric key,
which is what `Array.prototype.sort` with a subtracting comparator computes) and `Records`
(`Id` lookup, the next `Id`, how a created record is assembled).

Clock readings are passed in as the `now` string. `new Date(v)` is passed in as a function
`instant` (milliseconds) for sorting, and as a function `day` for the `toDateString` comparison.
`Math.random` readings are passed in as `Draw`s.

Ids can be reused: after the record with the largest `Id` is deleted, `create` issues that `Id`
again (`Records.DeleteNewestReissuesId`).

The commission calculator over-allocates: with the shipped rates its shares are 200% and 100% of
the 5% commission, so the widget's total is three times the commission
(`CommissionCalculator.ShippedRatesOverAllocate`).

The price buckets overlap as the page applies them: the quick range filter is inclusive at both
ends, so a price on a boundary, such as ₹10 Lakh, is selected by two buckets
(`Constants.BoundaryInTwoQuickRanges`, `SearchFilters.BoundaryPriceSelectedTwice`).

## Model

| member | source | states |
|---|---|---|
| Json.Spread | src/services/api/commissionService.js:45 | object spread: the keys of both records; the patch's value wins on shared keys, the base's value is kept elsewhere |
| Json.Truthy | src/components/molecules/SearchFilters.jsx:38 | JavaScript truthiness: `null`, `false`, 0 and "" are falsy, every array and object truthy (used by `SearchFilters.ActiveOnlyWhenTruthy` and `Formatters.ColorOf`) |
| Json.ToNumber | src/components/pages/Dashboard.jsx:40 | the `Number` coercion `*` applies; `Json.NumberOfDecimalText` and `Json.BlankTextIsZero` state what it gives for text |
| Records.MaxId | src/services/api/commissionService.js:29 | on a non-empty store with numeric ids, the largest `Id`: no record exceeds it and some record has it |
| Records.NextId | src/services/api/commissionService.js:29 | the generated `Id` is the largest `Id` plus one: strictly greater than every `Id` in the store and one more than an existing `Id` |
| Records.NewRecord | src/services/api/commissionService.js:30-34 | the created record has `Id`, the caller's keys and the store's keys; the store's stamps win over the caller, the caller wins over the generated `Id`, and without a caller `Id` the `Id` is the next one |
| Records.FindIndex | src/services/api/commissionService.js:41 | `findIndex`: the index of the first record with that `Id`; `None` exactly when no record has it |
| Records.RemoveAt | src/services/api/commissionService.js:55 | `splice(k, 1)`: one shorter; records before `k` stay in place, records after it shift down by one |
| Records.DeleteNewestReissuesId | src/services/api/propertyService.js:29-55 | create, then delete the created record, gives back the old store, and the next create issues the deleted record's `Id` again |
| Records.DeleteNeverRaisesNextId | src/services/api/propertyService.js:49-57 | removing any record keeps ids numeric and never raises the next `Id` |
| CommissionService.CommissionStore.constructor | src/services/api/commissionService.js:4-6 | the store starts as a copy of the seed records |
| CommissionService.CommissionStore.GetAll | src/services/api/commissionService.js:13-16 | returns every record in insertion order; the store is unchanged |
| CommissionService.CommissionStore.GetById | src/services/api/commissionService.js:18-25 | the first record with that `Id`, or `Err("Commission record not found")` when there is none |
| CommissionService.CommissionStore.Create | src/services/api/commissionService.js:27-37 | appends `NewRecord` with `date` set to the current time; earlier records are unchanged; ids stay numeric |
| CommissionService.CommissionStore.Update | src/services/api/commissionService.js:39-47 | absent `Id`: error and no change; otherwise only the first match is replaced by the merge of itself and the patch, and that record is returned |
| CommissionService.CommissionStore.Delete | src/services/api/commissionService.js:49-57 | absent `Id`: error and no change; otherwise the first match is removed and returned, and the rest keep their order |
| CommissionService.CommissionStore.GetByUserId | src/services/api/commissionService.js:59-62 | the records whose `userId` equals the argument, in store order |
| CommissionService.CommissionStore.GetByPropertyId | src/services/api/commissionService.js:64-67 | the records whose `propertyId` equals the argument, in store order |
| PropertyService.PropertyStore.constructor | src/services/api/propertyService.js:4-6 | the store starts as a copy of the seed records |
| PropertyService.PropertyStore.GetAll | src/services/api/propertyService.js:13-16 | every property in insertion order; the store is unchanged |
| PropertyService.PropertyStore.GetById | src/services/api/propertyService.js:18-25 | the first property with that `Id`, or `Err("Property not found")` exactly when none has it |
| PropertyService.PropertyStore.Create | src/services/api/propertyService.js:27-37 | appends `NewRecord` with `createdAt` overwritten by the current time |
| PropertyService.PropertyStore.Update | src/services/api/propertyService.js:39-47 | merges the patch into the first match only and keeps its other fields; an absent `Id` is an error with no change |
| PropertyService.PropertyStore.Delete | src/services/api/propertyService.js:49-57 | removes and returns the first match, keeping the order of the rest; an absent `Id` is an error with no change |
| UserService.UserStore.constructor | src/services/api/userService.js:4-6 | the store starts as a copy of the seed records |
| UserService.UserStore.GetAll | src/services/api/userService.js:13-16 | every user in insertion order; the store is unchanged |
| UserService.UserStore.GetById | src/services/api/userService.js:18-25 | the first user with that `Id`, or `Err("User not found")` |
| UserService.UserStore.Create | src/services/api/userService.js:27-38 | appends `NewRecord` with `joinedDate` set to now and `isActive` true, whatever the caller passed for them |
| UserService.UserStore.Update | src/services/api/userService.js:40-48 | right-biased merge into the first match only; a missing `Id` is an error with no change |
| UserService.UserStore.Delete | src/services/api/userService.js:50-58 | removes and returns the first matching user |
| UserService.UserStore.GetTeamByUplineId | src/services/api/userService.js:60-63 | the users whose `uplineId` equals the argument, in store order |
| Constants.ContiguousCoversFrom | src/utils/constants.js:38-46 | in linked buckets whose first lower bound is at most `price` and whose last is open, some bucket contains `price` |
| Constants.MinsIncrease | src/utils/constants.js:38-46 | in a contiguous table, every later bucket starts strictly higher |
| Constants.ContiguousDisjoint | src/utils/constants.js:38-46 | under a half-open reading of a bucket (upper bound excluded), which the page's filter does not use, no price lies in two buckets of a contiguous table |
| Constants.BoundaryInTwoQuickRanges | src/utils/constants.js:38-46 | read inclusively at both ends, as the quick range filter applies a bucket, the price where one bucket ends and the next begins lies in both (and the half-open reading excludes it from the first) |
| Constants.PriceRangesContiguous | src/utils/constants.js:38-46 | the shipped price buckets start at 0, each ends where the next begins, minimums strictly increase, and only the last is open |
| Constants.ContiguousCovers | src/utils/constants.js:38-46 | every non-negative price lies in some bucket of a contiguous table |
| Constants.TablesHaveDistinctIds | src/utils/constants.js:1-20 | five categories and four statuses, each table with distinct ids, and distinct role ids |
| Constants.RolesInHierarchyOrder | src/utils/constants.js:16-20 | roles are admin, member, sub-member at levels 0, 1, 2 |
| Constants.RatesDecreaseDownTheHierarchy | src/utils/constants.js:22-26 | admin 0.15 > member 0.10 > sub-member 0.05 > 0 |
| CommissionCalculator.ShareOf | src/components/molecules/CommissionCalculator.jsx:26-38 | a role's share: amount is `rate / 0.05` of the total and the percentage is `rate / 0.05` times 100 |
| CommissionCalculator.Calculate | src/components/molecules/CommissionCalculator.jsx:23-39 | total is 5% of the amount; exactly two shares, member then sub-member, each scaled from its rate |
| CommissionCalculator.Recalculate | src/components/molecules/CommissionCalculator.jsx:14-44 | with an empty amount or property type nothing changes and nothing is reported; otherwise the stored breakdown and the reported one are the same calculation |
| CommissionCalculator.SharesSumToTotalIff | src/components/molecules/CommissionCalculator.jsx:26-39 | for a non-zero sale, the shares add up to the total (and the percentages to 100) if and only if the member and sub-member rates add up to 0.05 |
| CommissionCalculator.ShippedRatesOverAllocate | src/components/molecules/CommissionCalculator.jsx:30-37 | with the shipped rates the percentages are 200 and 100 and the summed amounts are three times the total commission |
| CommissionCalculator.PropertyTypeIrrelevant | src/components/molecules/CommissionCalculator.jsx:14-44 | any two non-empty property types give the same numbers |
| CommissionsPage.SaleFields | src/components/pages/Commissions.jsx:82-102 | the fields passed to `create` carry neither `Id` nor `date`, so the store assigns both |
| CommissionsPage.FirstWithRole | src/components/pages/Commissions.jsx:120 | `find(d => d.role === role)`: some entry exactly when an object entry has that role, and then the first such entry |
| CommissionsPage.MemberEarning | src/components/pages/Commissions.jsx:120 | a commission earns something only when its `distributions` array has a "member" entry |
| CommissionsPage.TotalEarnings | src/components/pages/Commissions.jsx:118-123 | the sum of the member shares; non-negative when every share is (bounded by `CommissionsPage.FilteredEarningsAtMostTotal`) |
| CommissionsPage.PendingEarnings | src/components/pages/Commissions.jsx:125-132 | the member shares of the pending commissions only; `CommissionsPage.PendingAtMostTotal` bounds it by the total |
| CommissionsPage.FilterCommissions | src/components/pages/Commissions.jsx:59-74 | the day filter, then the status filter, each only when set; `CommissionsPage.FilterCommissionsExact` states the result |
| CommissionsPage.FilteredEarningsAtMostTotal | src/components/pages/Commissions.jsx:118-132 | with non-negative member shares, the sum over any filtered sub-list lies between 0 and the total |
| CommissionsPage.PendingAtMostTotal | src/components/pages/Commissions.jsx:125-132 | pending earnings lie between 0 and total earnings |
| CommissionsPage.FilterCommissionsExact | src/components/pages/Commissions.jsx:59-74 | the day filter followed by the status filter is one filter by both active conditions, in store order |
| CommissionsPage.UnmatchedStatusGivesEmpty | src/components/pages/Commissions.jsx:69-71 | a status no commission has gives an empty list |
| CommissionsPage.DayFilterIgnoresSaleDate | src/components/pages/Commissions.jsx:62-67 | changing a commission's `saleDate` never changes whether it is shown: only the store's `date` is compared |
| CommissionsPage.AvailableForSale | src/components/pages/Commissions.jsx:51 | a property is offered for a sale exactly when it is in the store with status "available"; the offers keep store order |
| CommissionsPage.SaleDistributionsSum | src/components/pages/Commissions.jsx:87-98 | the 60/40 split's amounts sum to the total and its percentages to 100; the member entry is 60% of the total |
| CommissionsPage.RecordedSaleShape | src/components/pages/Commissions.jsx:80-99 | the stored commission has the next `Id`, the store's date, the property, rate 0.05, total 5% of the sale and status "pending" |
| CommissionsPage.RecordedSaleMemberShare | src/components/pages/Commissions.jsx:87-98 | the stored split is the 60/40 one, and the member earning counted for it is 60% of 5% of the sale |
| CommissionsPage.RecordSale | src/components/pages/Commissions.jsx:76-116 | the commission is always appended to the store; when the property exists it is marked sold and the commission is added to the page's list; otherwise the property store and the page's list are unchanged |
| Sorting.SortByKey | src/components/pages/Properties.jsx:45-58 | the sorted list is a permutation of its input |
| Sorting.SortByKeySorted | src/components/pages/Properties.jsx:45-58 | the sorted list is non-decreasing in the comparator's key |
| Sorting.SortIsStable | src/components/pages/Properties.jsx:45-58 | elements with the same key keep their original relative order, as the stable `Array.prototype.sort` does |
| Sorting.ConstantKeyKeepsOrder | src/components/pages/Properties.jsx:56-57 | a comparator that calls everything equal leaves the list unchanged |
| Text.DecimalRoundTrip | src/components/pages/Properties.jsx:86-92 | the decimal text of a non-negative price reads back as that price |
| PropertiesPage.ParseIntOfDecimal | src/components/pages/Properties.jsx:86-92 | `parseInt` of a typed price is that price |
| PropertiesPage.ParseInt | src/components/pages/Properties.jsx:86-92 | `parseInt` of a filter value: numbers truncate toward zero, text is parsed, anything else is `NaN`; `PropertiesPage.ParseIntOfDecimal` and `SearchFilters.ParseIntOfWhole` state its results |
| PropertiesPage.FilterProperties | src/components/pages/Properties.jsx:62-95 | the chain of six optional filters; `PropertiesPage.FilterPropertiesExact` proves it is the one filter `Admits` |
| PropertiesPage.FilterPropertiesExact | src/components/pages/Properties.jsx:62-95 | the chain of six optional filters is the one conjunctive filter `Admits`: search in title or location ignoring case, exact category, exact status, location text, inclusive price bounds |
| PropertiesPage.NoActiveFilterShowsAll | src/components/pages/Properties.jsx:62-95 | with every filter value falsy the whole stored list is shown, in store order |
| PropertiesPage.SortProperties | src/components/pages/Properties.jsx:44-60 | a permutation; "price-low" is non-decreasing in price, "price-high" non-increasing, "newest" non-increasing in `createdAt`, "oldest" non-decreasing |
| PropertiesPage.SortPropertiesIsStable | src/components/pages/Properties.jsx:44-60 | properties the comparator calls equal keep their relative order |
| PropertiesPage.UnknownSortKeepsOrder | src/components/pages/Properties.jsx:56-57 | a sort mode that is none of the four leaves the list unchanged |
| PropertiesPage.Loaded | src/components/pages/Properties.jsx:21-36 | the load stores the data and shows it sorted by the current mode (`PropertiesPage.LoadedShowsEverything`) |
| PropertiesPage.SortChanged | src/components/pages/Properties.jsx:25-27 | a new sort mode re-sorts the shown list (`PropertiesPage.SortChangedPermutes`) |
| PropertiesPage.FiltersChanged | src/components/pages/Properties.jsx:62-95 | the shown list becomes the filtered stored list, unsorted (`PropertiesPage.FiltersChangedShowsAdmitted`) |
| PropertiesPage.LoadedShowsEverything | src/components/pages/Properties.jsx:25-36 | after a load every stored property is shown once |
| PropertiesPage.FiltersChangedShowsAdmitted | src/components/pages/Properties.jsx:62-95 | after a filter change the page shows exactly the admitted stored properties, as a subsequence in store order, whatever the sort mode |
| PropertiesPage.SortChangedPermutes | src/components/pages/Properties.jsx:25-27 | changing the sort mode only reorders what is shown |
| SearchFilters.Initial | src/components/molecules/SearchFilters.jsx:9-17 | the six keys, each "" unless the caller's initial filters give a value, which wins |
| SearchFilters.HasActive | src/components/molecules/SearchFilters.jsx:38 | some field holds a truthy value; SearchFilters.ActiveOnlyWhenTruthy and SearchFilters.Clear state its behaviour |
| SearchFilters.ActiveOnlyWhenTruthy | src/components/molecules/SearchFilters.jsx:38 | from an inactive panel, one change makes it active exactly when the new value is truthy; the number 0 does not |
| SearchFilters.SetFilter | src/components/molecules/SearchFilters.jsx:19-23 | exactly one key takes the new value, every other key is kept, and the new record is sent to the page |
| SearchFilters.Clear | src/components/molecules/SearchFilters.jsx:25-36 | the six keys, each "", hence none active, and that record is sent to the page |
| SearchFilters.MaxValue | src/components/molecules/SearchFilters.jsx:112 | `range.max || ""`: a non-zero maximum is kept as a number; an open bucket or a maximum of 0 sets "" |
| SearchFilters.QuickRangeAsWritten | src/components/molecules/SearchFilters.jsx:110-113 | the quick-range button as written: two changes that both spread the pre-click filters (`SearchFilters.QuickRangeDropsMinimum` shows the minimum is lost) |
| SearchFilters.QuickRangeDropsMinimum | src/components/molecules/SearchFilters.jsx:110-113 | a quick range notifies twice, and both the panel and the last notification keep the old minimum |
| SearchFilters.QuickRangeFromBlankLosesBucketMinimum | src/components/molecules/SearchFilters.jsx:110-113 | from the blank panel the "₹50 Lakh - 1 Crore" button leaves minimum "" and maximum 10000000 |
| SearchFilters.QuickRange | src/components/molecules/SearchFilters.jsx:110-113 | corrected button: both bounds set from the bucket, the other keys kept, one notification |
| SearchFilters.QuickRangeSelectsBucket | src/components/molecules/SearchFilters.jsx:110-113 | from the blank panel the corrected button admits exactly the properties priced within the bucket, bounds inclusive |
| SearchFilters.BoundaryPriceSelectedTwice | src/components/pages/Properties.jsx:86-92 | a property priced exactly ₹10 Lakh passes both the "Under ₹10 Lakh" and the "₹10 - 25 Lakh" quick range |
| TeamPage.SubMemberPool | src/components/pages/Team.jsx:49 | one entry per sub-member user |
| TeamPage.WithHierarchy | src/components/pages/Team.jsx:45-50 | the user's own fields are kept; sales are a whole number in 1..20, earnings in 50000..549999; a member gets the first 1 to 3 sub-members, anyone else none |
| TeamPage.Statistics | src/components/pages/Team.jsx:45-50 | the three keys `loadTeam` adds to each user: `totalSales`, `totalEarnings` and `subMembers` (`TeamPage.WithHierarchy` states their values) |
| TeamPage.LoadTeam | src/components/pages/Team.jsx:44-51 | one entry per non-admin user, in store order, no admin among them, each the user given its own draw |
| TeamPage.SubMembersAreSubMembers | src/components/pages/Team.jsx:48-50 | everything listed under `subMembers` is a sub-member user of the store |
| TeamPage.FilterTeam | src/components/pages/Team.jsx:61-76 | the search stage, then the role stage, each only when non-empty; `TeamPage.FilterTeamExact` and `TeamPage.FilterTeamOrder` state the result |
| TeamPage.FilterTeamExact | src/components/pages/Team.jsx:61-76 | search on name or e-mail ignoring case AND role equality, each only when non-empty, in team order |
| TeamPage.FilterTeamOrder | src/components/pages/Team.jsx:61-76 | the filtered team is a subsequence of the team, and the whole team when both filters are empty |
| TeamPage.RoleCountsWithinTeam | src/components/pages/Team.jsx:129-148 | member count plus sub-member count is at most the team size |
| TeamPage.InviteRoles | src/components/pages/Team.jsx:248 | the invite form offers every role except admin, and only roles of the table |
| TeamPage.InvitedMemberShape | src/components/pages/Team.jsx:81-88 | the invitee has the next `Id`, the form's name, e-mail, phone and role, the join time, active, zero totals and no sub-members |
| TeamPage.Invite | src/components/pages/Team.jsx:78-97 | the invitee is appended to the store and to the team, and the form goes back to blank with role "sub-member" |
| TeamPage.InviteShowsNewMemberIfShown | src/components/pages/Team.jsx:33-35 | after an invitation the filtered list gains the new member at the end exactly when it passes the current filters |
| Dashboard.Recent | src/components/pages/Dashboard.jsx:34 | the first min(6, n) properties, a prefix of the list |
| Dashboard.SaleAmount | src/components/pages/Dashboard.jsx:40 | `c.saleAmount` as the product reads it: a number is kept, an absent field is `NaN` (`None`), other values are coerced by `Json.ToNumber` |
| Dashboard.Earnings | src/components/pages/Dashboard.jsx:40 | the `reduce` of 5% of each sale amount; `Dashboard.EarningsAreRateOfSales` states its value |
| Json.NumberOfDecimalText | src/components/pages/Dashboard.jsx:40 | `Number` of a decimal numeral, with any white space around it, is that number |
| Json.BlankTextIsZero | src/components/pages/Dashboard.jsx:40 | `Number` of an empty or white-space-only string is 0 |
| Text.TrimPadded | src/components/pages/Dashboard.jsx:40 | `trim` removes exactly the white space around a text that neither starts nor ends with white space |
| Dashboard.EarningsAreRateOfSales | src/components/pages/Dashboard.jsx:40 | total earnings are 5% of the summed sale amounts after `Number` coercion, whatever the status or split; `NaN` once some amount does not coerce (an absent field, a non-numeric string, an object) |
| Dashboard.CoercedAmountsAddUp | src/components/pages/Dashboard.jsx:40 | amounts `null`, `" 100"` and `true` are coerced to 0, 100 and 1 and give earnings 5.05 |
| Dashboard.ComputeMetrics | src/components/pages/Dashboard.jsx:36-49 | the five card values: the list length, the counts of "available" and of "sold" properties, the 5% earnings and the number of non-admin users; available plus sold is at most the total, the team at most the users |
| MessagesPage.Load | src/components/pages/Messages.jsx:62-67 | after load the first conversation is active with its thread, numbered in order |
| MessagesPage.WithLastMessage | src/components/pages/Messages.jsx:124-128 | only entries with the active id get the new last message and time |
| MessagesPage.MarkedRead | src/components/pages/Messages.jsx:138-141 | only entries with the selected id get unread count 0 |
| MessagesPage.Filtered | src/components/pages/Messages.jsx:145-147 | every listed conversation's name contains the term, ignoring case |
| MessagesPage.Send | src/components/pages/Messages.jsx:107-130 | sending the draft; `MessagesPage.SendAppendsDraft`, `MessagesPage.SendBlankIsNoop` and `MessagesPage.SendKeepsThreadWellFormed` state its effect |
| MessagesPage.Select | src/components/pages/Messages.jsx:132-143 | selecting a conversation; `MessagesPage.SelectMarksRead` states its effect |
| MessagesPage.MockMessagesWellFormed | src/components/pages/Messages.jsx:75-105 | every loaded thread is numbered 1, 2, 3 and marks exactly the user's messages as own |
| MessagesPage.ThirdConversationShowsAmit | src/components/pages/Messages.jsx:78-100 | the thread loaded for conversation 3 (Neha Patel) is with Amit Kumar |
| MessagesPage.SendKeepsThreadWellFormed | src/components/pages/Messages.jsx:107-121 | sending keeps the thread numbered in order, with own messages marked |
| MessagesPage.SendAppendsDraft | src/components/pages/Messages.jsx:107-130 | a non-blank send appends the draft as the user's message, clears the draft, and changes only the active conversation's last message and time |
| MessagesPage.SendBlankIsNoop | src/components/pages/Messages.jsx:109 | a blank or whitespace-only draft changes nothing |
| MessagesPage.SelectMarksRead | src/components/pages/Messages.jsx:132-143 | selecting marks read only the entries with that id, and only when the selected conversation showed unread messages; it becomes active with its thread |
| MessagesPage.FilteredExact | src/components/pages/Messages.jsx:145-147 | the search lists exactly the conversations whose name contains the term, as a subsequence |
| MessagesPage.EmptySearchListsAll | src/components/pages/Messages.jsx:145-147 | an empty search lists every conversation |
| PropertyDetailPage.StepInRange | src/components/pages/PropertyDetail.jsx:126-151 | previous, next or a thumbnail click from a valid index lands on a valid index |
| PropertyDetailPage.Prev | src/components/pages/PropertyDetail.jsx:126 | `Math.max(0, i - 1)`; `PropertyDetailPage.StepInRange` and `PropertyDetailPage.PrevNextRoundTrip` state its effect |
| PropertyDetailPage.Next | src/components/pages/PropertyDetail.jsx:134 | `Math.min(n - 1, i + 1)`; `PropertyDetailPage.StepInRange` and `PropertyDetailPage.PrevNextRoundTrip` state its effect |
| PropertyDetailPage.ClicksInRange | src/components/pages/PropertyDetail.jsx:120-151 | any sequence of gallery clicks keeps the index within the images |
| PropertyDetailPage.PrevNextRoundTrip | src/components/pages/PropertyDetail.jsx:126-134 | next undoes previous away from the ends; previous at the first and next at the last stay put |
| PropertyDetailPage.ShownImage | src/components/pages/PropertyDetail.jsx:115 | the image at the index when there is a truthy one; the placeholder past the end of the list or for a falsy entry |
| PropertyDetailPage.StatusActions | src/components/pages/PropertyDetail.jsx:268-298 | actions are offered exactly when the status is "available", and only under-negotiation, sold and rented |
| PropertyDetailPage.StatusPatch | src/components/pages/PropertyDetail.jsx:40-43 | the whole record with only `status` replaced |
| PropertyDetailPage.PatchOfStoredRecord | src/components/pages/PropertyDetail.jsx:38-49 | when the page's copy is the stored record, the stored record becomes that record with the new status |
| PropertyDetailPage.UpdateStatus | src/components/pages/PropertyDetail.jsx:38-49 | the store merges the patch into the property with that `Id` and the page shows the result with the new status; a missing property leaves store and page as they were |
| Formatters.ColorOf | src/utils/formatters.js:40-57 | a known key gives its colour, any other key the gray default |
| Formatters.StatusColor | src/utils/formatters.js:40-48 | `getStatusColor`; `Formatters.StatusColorsCoverStatuses` states its values |
| Formatters.RoleColor | src/utils/formatters.js:50-57 | `getRoleColor`; `Formatters.RoleColorsCoverRoles` states its values |
| Formatters.FormatPhone | src/utils/formatters.js:31-38 | `formatPhone`; `Formatters.FormatTenDigits`, `Formatters.FormatPhoneIdempotent` and `Formatters.OtherNumbersUnchanged` state its results |
| Formatters.StatusColorsCoverStatuses | src/utils/formatters.js:40-48 | each status of the table has its own non-gray colour; any other status is gray |
| Formatters.RoleColorsCoverRoles | src/utils/formatters.js:50-57 | each role of the table has its own non-gray colour; any other role is gray |
| Formatters.FormatTenDigits | src/utils/formatters.js:33-36 | ten digits give 15 characters, "+91 " first, a space at position 9, the digits "91" followed by the input's digits |
| Formatters.FormatPhoneIdempotent | src/utils/formatters.js:31-38 | formatting a formatted number changes nothing |
| Formatters.OtherNumbersUnchanged | src/utils/formatters.js:37 | a number without exactly ten digits is returned as given |

## Left out

- Latency (`delay`), promises and `async`: every store call is synchronous. The seed JSON is a constructor argument.
- Rendering, styling, toasts, routing, `navigator.share` and the clipboard are not modelled.
- `formatCurrency`, `formatNumber`, `formatDate` and `formatDateTime` are `Intl` calls and are not modelled.
- The `INDIAN_STATES` table in constants.js is not modelled. It only feeds a select box.
- Numbers are `real`. IEEE-754 rounding, `NaN`, `Infinity` and `-0` are not modelled, except in the dashboard's earnings, where a sale amount that `Number` cannot coerce makes the sum `None`.
- Dashboard.EarningsAreRateOfSales: `Json.ToNumber` coerces `null`, booleans, numbers and strings that trim to nothing or to decimal digits as JavaScript does. Strings with a sign, a fraction, an exponent, a hex prefix or "Infinity", and one-element or empty arrays, are coerced to numbers by JavaScript but give `NaN` (`None`) here.
- CommissionsPage.MemberEarning: only number and boolean amounts are added as JavaScript adds them (`null`, `""` and `false` are 0 by `|| 0`, `true` adds 1). A non-empty string, array or object amount would turn `sum + userEarning` into string concatenation; it is read as 0, so the earnings cards do not model that concatenation. Two cases in which `Commissions.jsx:120` throws a `TypeError` are not modelled either: a `distributions` value that is present but not an array (it has no `find`) reads as 0, and a `null` entry before the member entry (`d.role` of `null`) is skipped.
- `new Date(...)` and `toDateString` are parameters of the model (`instant`, `day`). Time zones and date parsing are not modelled.
- `Math.random` is replaced by the `Draw` readings. Each reading is reduced to its range with `%`.
- Case folding and `trim` are ASCII only. Unicode `toLowerCase` and Unicode white space are not modelled.
- `undefined` and `null` both read as `Null`. A missing text field reads as "" in the searches, where the page would throw on `.toLowerCase()` of a non-string.
- `parseInt` skips leading white space and reads a "0x" prefix as hexadecimal; `PropertiesPage.ParseIntText` does neither. A number input never holds either, so the price filters are not affected.
- Colour lookups use a `map`. Keys inherited from `Object.prototype` (such as "constructor") are not modelled.
- Records are values, so the live-object aliasing of `getByUserId`, `getByPropertyId` and `getTeamByUplineId` results is not modelled.
- Store `Id`s are numbers. A store whose records lack a numeric `Id` is excluded by `Valid()`, and `create` on an empty store is excluded by its precondition, because `Math.max()` is `-Infinity` there.
- `Formatters.FormatPhone` takes a string or nothing. A truthy non-string phone, on which `replace` throws, is not modelled.
- The failure branch of `handleInvite` is not modelled, because `create` cannot fail in the model.
- `PropertiesPage.PriceAtLeast` and `PropertiesPage.PriceAtMost` admit only a number price. JavaScript's `>=` and `<=` coerce a `null` price to 0, so it passes a set maximum, and coerce a numeric string such as "800000" to its value, so it passes bounds that contain it. The model rejects both. No page builds such a price: stored prices come from the seed records, and the status patch keeps the price.
- `PropertiesPage.PriceOf` reads a non-number price as 0 in the sort, where the comparator would give `NaN`.
- The gallery index is not reset when the page loads another property. `PropertyDetailPage.ShownImage` shows the placeholder for an index past the end.

## Findings

| source | as written | input that shows it | evidently intended | confidence | as-written member | corrected member |
|---|---|---|---|---|---|---|
| src/components/molecules/SearchFilters.jsx:110-113 | the quick-range button calls `handleFilterChange` twice; both calls spread the same pre-click `filters`, so the second update and notification carry the old `minPrice` | all filters blank, click "₹50 Lakh - 1 Crore": the final filters are `minPrice: ""`, `maxPrice: 10000000` | `minPrice: 5000000` and `maxPrice: 10000000`, one update | high, not executed | SearchFilters.QuickRangeAsWritten (SearchFilters.QuickRangeDropsMinimum, SearchFilters.QuickRangeFromBlankLosesBucketMinimum) | SearchFilters.QuickRange (SearchFilters.QuickRangeSelectsBucket) |
