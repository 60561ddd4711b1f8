# CarDet core, modelled in Dafny

CarDet is a SwiftUI app for a car-detailing business. This project models its core logic in Dafny and proves properties of that model. The modelled parts are:

- **Monthly order analytics** (`Analytics`). Orders are counted per status for one calendar month, optionally only those of one owner. The output has one row for every status, in the fixed status order.
- **Service revenue breakdown** (`ServiceAnalytics`). For one month, the line items are grouped per detailing service into a count and a revenue, and the slices are sorted by revenue, largest first.
- **Orders, items and the service catalog** (`Orders`). This covers the default prices and descriptions, the computed order total, the custom-price flag, the mock orders and the per-user and per-car filters.
- **The two donut charts** (`StatusDonut`, `ServiceDonut`, sharing `Cumulative`):
  - which data they chart;
  - which slice a tap angle selects;
  - what the centre of each chart shows;
  - the breakdown column.
- **The month picker** (`MonthPicking`): step bounds, the drag rule and the picker as an object with a month field.
- **The contact editing form** (`ContactEditing`): phone and email normalisation, change detection, the save payload, and the avatar bootstrap. As written, the bootstrap counts a downloaded avatar as a user change; see "## Findings".
- **Users** (`Users`): cities, `updating`, which replaces given fields and keeps the rest, the mock users and the car filter.
- **Field helpers** (`EditableFields`): the optional-string binding, placeholders and the optional-date binding.
- **Date helpers** (`DateExt`): shifting by days, hours and minutes, the end of a time range, the 24 hours, the week start, same-day comparison and the days of the current week.
- **The Xcode release feed** (`Releases`, `ReleaseFeed`):
  - a release's identity key and display version;
  - the view model's load step: sort newest first, keep the first release of each id, keep the names containing "Xcode", show the first page;
  - its pagination.

### Entities and data

- Every entity the source treats as a value is a `datatype`.
- The two objects whose fields change in place are `class`es with `modifies` clauses: the contact form's state and `XcodeViewModel`. `MonthPicker`, a view around a bound `month`, is a class too.
- Prices, revenues, chart angles and `Date` values of the date helpers are `real`. Order dates are whole seconds (`int`).

### Environment inputs

Calendar and Foundation calls are parameters of the model:
- the month's `DateInterval`, which is `None` when the calendar fails;
- the week interval and the day-adding function;
- the same-day test;
- the result of fetching the release feed.

`UUID()` and `Date()` in the mock data are parameters as well.

### Month boundaries: the code is followed

`DateInterval.contains` is modelled as a closed interval, because Foundation includes the end instant. So an order placed exactly at the first instant of a month is counted for both that month and the one before it. See `BoundaryInstantInBothMonths`. A half-open month window is the evident intent of the design, but the model follows the code.

### Other notes

- Swift's `sorted` is modelled by an insertion sort. The contracts promise only what Swift promises: the result is sorted and is a permutation of the input.
- `UserModel.orders(for:)` (`CarDet/Services/User/Models/UserModel.swift:117-119`) is the same filter over the same mock orders as `OrderModel.orders(forUser:)`. So it is modelled once, as `Orders.OrdersForUser`.

## Model

| member | source | states |
|---|---|---|
| Analytics.AsOrderLike | CarDet/Core/Profile/Analytics/Analytics.swift:18-22 | The adapter exposes exactly the order's date, owner id and status. |
| Analytics.ToPredicate | CarDet/Core/Profile/Analytics/Analytics.swift:52-59 | Scope `all` keeps every order. Scope `owner(uid)` keeps an order iff its owner is `uid`. |
| Analytics.StatusRows | CarDet/Core/Profile/Analytics/Analytics.swift:94 | One row for every status, in the declared status order, with no status repeated. |
| Analytics.CountsByStatus | CarDet/Core/Profile/Analytics/Analytics.swift:77-95 | No month interval gives no rows. Otherwise each row's count is the number of orders in the month that the filter keeps, with that status. |
| Analytics.CountsByScope | CarDet/Core/Profile/Analytics/Analytics.swift:98-110 | The scope overload equals the predicate overload applied to the scope's predicate. |
| Analytics.TallyPartition | CarDet/Core/Profile/Analytics/Analytics.swift:86-91 | The four per-status counts add up to the number of retained orders. |
| Analytics.RowsConserveOrders | CarDet/Core/Profile/Analytics/Analytics.swift:86-94 | The counts in the returned rows add up to the number of orders retained by month and filter. |
| Analytics.EmptyInputZeroRows | CarDet/Core/Profile/Analytics/Analytics.swift:94 | With no orders, every status still gets a row, with count 0. |
| Analytics.TallyBounded | CarDet/Core/Profile/Analytics/Analytics.swift:89-90 | A status count is at most the retained count, which is at most the number of orders. |
| Analytics.OwnerScopeIgnoresOthers | CarDet/Core/Profile/Analytics/Analytics.swift:56-57 | Under owner scope, adding another user's order leaves every row unchanged. |
| Analytics.AllScopeCountsEveryOrder | CarDet/Core/Profile/Analytics/Analytics.swift:89-90 | Under scope `all`, adding an order inside the month raises exactly its status's count by one. |
| Analytics.BoundaryInstantInBothMonths | CarDet/Core/Profile/Analytics/Analytics.swift:82 | The closed month test counts the first instant of a month in the previous month as well. |
| Analytics.OwnerScopedMonthExample | CarDet/Core/Profile/Analytics/Analytics.swift:77-94 | Worked example: out-of-month orders and other users' orders are excluded, and zero rows are kept. |
| ServiceAnalytics.ServiceRevenueSlice.Title | CarDet/Core/Profile/Analytics/ServiceAnalytics.swift:20 | The title is the service's raw value, and is never empty. |
| ServiceAnalytics.TitleIdentifiesService | CarDet/Core/Profile/Analytics/ServiceAnalytics.swift:16-20 | Two slices have the same title iff they have the same id, that is, the same service. |
| ServiceAnalytics.Qualifying | CarDet/Core/Profile/Analytics/ServiceAnalytics.swift:42 | An order qualifies iff it is in the month and the filter keeps it. |
| ServiceAnalytics.RevenueByService | CarDet/Core/Profile/Analytics/ServiceAnalytics.swift:39-63 | No month interval gives no slices. Otherwise the result is a revenue breakdown of the month's filtered line items: a permutation, sorted by descending revenue, of one slice per service that occurs. |
| ServiceAnalytics.RevenueByScope | CarDet/Core/Profile/Analytics/ServiceAnalytics.swift:67-79 | The scope overload is a revenue breakdown under the scope's predicate. |
| ServiceAnalytics.TracksStep | CarDet/Core/Profile/Analytics/ServiceAnalytics.swift:52-53 | One loop step keeps the count and sum dictionaries equal to the per-service count and revenue of the items seen so far. |
| ServiceAnalytics.CompactSlicesSeen | CarDet/Core/Profile/Analytics/ServiceAnalytics.swift:58-62 | Walking every service over the final dictionaries yields exactly the services that occur, with their count and revenue. |
| ServiceAnalytics.BreakdownContents | CarDet/Core/Profile/Analytics/ServiceAnalytics.swift:45-63 | Each slice has count at least 1, and its count and revenue are those of its service. A slice exists for a service iff that service occurs. No service is repeated. Revenues do not increase along the list. |
| ServiceAnalytics.ZeroPriceItemListed | CarDet/Core/Profile/Analytics/ServiceAnalytics.swift:52-61 | A service whose items all cost 0 still gets a slice, because the gate is the count, not the revenue. |
| ServiceAnalytics.EmptyOrderContributesNothing | CarDet/Core/Profile/Analytics/ServiceAnalytics.swift:50-51 | An order without items changes nothing in the items being grouped. |
| ServiceAnalytics.AllServicesRevenue | CarDet/Core/Profile/Analytics/ServiceAnalytics.swift:50-55 | The per-service revenues over all services add up to the sum of the items' line totals. |
| ServiceAnalytics.RevenueConserved | CarDet/Core/Profile/Analytics/ServiceAnalytics.swift:42-56 | The revenues of the breakdown add up to the total of all grouped line items. |
| ServiceAnalytics.NoItemsNoSlices | CarDet/Core/Profile/Analytics/ServiceAnalytics.swift:57-62 | With no items the breakdown is empty. |
| ServiceAnalytics.WashAndWaxExample | CarDet/Core/Profile/Analytics/ServiceAnalytics.swift:50-63 | Worked example: two washes at 60 and one wax at 40 give exactly [wash 2 items 120, wax 1 item 40]. |
| Orders.OrderStatus.SortOrder | CarDet/Services/Order/Models/OrderModel.swift:18-25 | The sort order is the status's position in the declared status list. |
| Orders.SortOrderInjective | CarDet/Services/Order/Models/OrderModel.swift:18-25 | Different statuses have different sort orders. |
| Orders.AllStatusesComplete | CarDet/Services/Order/Models/OrderModel.swift:11-15 | The status list contains every status exactly once. |
| Orders.AllServicesComplete | CarDet/Services/Order/Models/OrderModel.swift:30-40 | The service list contains every service exactly once. |
| Orders.RawValueInjective | CarDet/Services/Order/Models/OrderModel.swift:30-40 | Different services have different raw values. |
| Orders.CatalogWellFormed | CarDet/Services/Order/Models/OrderModel.swift:74-125 | The default catalog covers every service. Each entry is keyed by its own service, has a non-negative price and has a short description. |
| Orders.Info | CarDet/Services/Order/Models/OrderModel.swift:44-50 | The info is the catalog entry for the service. Its fallback has price 0 and the raw value as description. |
| Orders.CatalogPrices | CarDet/Services/Order/Models/OrderModel.swift:74-125 | The base price of each of the ten services, as listed in the catalog. |
| Orders.MakeItem | CarDet/Services/Order/Models/OrderModel.swift:218-236 | Without a unit price, the item gets the base price and is not custom-priced. It is custom-priced iff a given price differs from the base price. |
| Orders.DisplayDescriptionFallback | CarDet/Services/Order/Models/OrderModel.swift:231-233 | The description is the custom one when present, and otherwise the catalog's short description. |
| Orders.LineTotalSumAppend | CarDet/Services/Order/Models/OrderModel.swift:174 | The computed total of concatenated item lists is the sum of their totals. |
| Orders.LineTotalSumNonNegative | CarDet/Services/Order/Models/OrderModel.swift:167 | Items with non-negative prices give a non-negative computed total. |
| Orders.MakeOrder | CarDet/Services/Order/Models/OrderModel.swift:152-171 | Stores every argument. Without an explicit total price, the total is the sum of the line totals. |
| Orders.OrderAccessors | CarDet/Services/Order/Models/OrderModel.swift:176-177 | The item count is the number of items. Notes are present iff they are non-empty. |
| Orders.Mocks | CarDet/Services/Order/Models/OrderModel.swift:246-301 | There are five mock orders. |
| Orders.MockTotals | CarDet/Services/Order/Models/OrderModel.swift:158-168 | Every mock order's total equals its computed total. |
| Orders.MockCustomPricing | CarDet/Services/Order/Models/OrderModel.swift:274-275 | The discounted ceramic coating is custom-priced, and that order's total is 540. |
| Orders.OrdersForUser | CarDet/Services/Order/Models/OrderModel.swift:303-305 | Exactly the mock orders of that user, in their original order. |
| Orders.OrdersForCar | CarDet/Services/Order/Models/OrderModel.swift:307-309 | Exactly the mock orders of that car, in their original order. |
| Orders.FirstUserOrders | CarDet/Services/Order/Models/OrderModel.swift:303-305 | The orders of user_01 are the first two mocks. |
| StatusDonut.ChartData | CarDet/Core/Profile/Analytics/DonutView.swift:22 | The chart keeps exactly the rows with a positive count, in their order. |
| StatusDonut.CountsMap | CarDet/Core/Profile/Analytics/DonutView.swift:23-25 | Keys are exactly the statuses of the rows, and each maps to its row's count. |
| StatusDonut.DefaultCenterStatus | CarDet/Core/Profile/Analytics/DonutView.swift:26-30 | "In progress" if it is charted. Otherwise the first charted status. When nothing is charted, "in progress". |
| StatusDonut.StatusAt | CarDet/Core/Profile/Analytics/DonutView.swift:32-42 | No selection when progress is not positive. Otherwise the status whose cumulative count range holds the scaled angle. |
| StatusDonut.StatusAtScaled | CarDet/Core/Profile/Analytics/DonutView.swift:35-41 | The loop returns the first charted status whose range `[acc, acc + count)` holds the angle. |
| StatusDonut.StatusSelection | CarDet/Core/Profile/Analytics/DonutView.swift:32-42 | A status is selected iff the scaled angle lies in `[0, total count)`. |
| StatusDonut.CenterStatus | CarDet/Core/Profile/Analytics/DonutView.swift:43-49 | The selected status when there is one, and otherwise the default centre status. |
| StatusDonut.CenterValue | CarDet/Core/Profile/Analytics/DonutView.swift:50 | The count of the centre status's row, and 0 when it has no row. |
| StatusDonut.Ordered | CarDet/Core/Profile/Analytics/DonutView.swift:217 | The statuses with a positive count, in chart order. |
| StatusDonut.ValueFor | CarDet/Core/Profile/Analytics/DonutView.swift:233-235 | The count of the first row with that status, and 0 when there is none. |
| StatusDonut.CenterValueIsTally | CarDet/Core/Profile/Analytics/DonutView.swift:49-50 | Over the analytics rows, the centre shows the month's count for the centre status. |
| StatusDonut.ValueForIsTally | CarDet/Core/Profile/Analytics/DonutView.swift:233-235 | Over the analytics rows, the breakdown shows each status's monthly count. |
| Cumulative.HitUnique | CarDet/Core/Profile/Analytics/DonutView.swift:35-41 | With non-negative weights, at most one cumulative range holds a given angle. |
| Cumulative.FirstHitIsOnlyHit | CarDet/Core/Profile/Analytics/DonutView.swift:35-41 | The first-hit search finds a slice iff the angle is in `[0, total)`, and the slice it finds is the only one that matches. |
| ServiceDonut.TotalRevenueAppend | CarDet/Core/Profile/Analytics/ServiceDonutView.swift:19 | The total revenue of a list grows by exactly the revenue of an appended slice. |
| ServiceDonut.ChartData | CarDet/Core/Profile/Analytics/ServiceDonutView.swift:20 | The chart keeps exactly the slices with positive revenue, in their order. |
| ServiceDonut.SliceAt | CarDet/Core/Profile/Analytics/ServiceDonutView.swift:22-34 | No selection when progress or the charted total is not positive. Otherwise the slice whose cumulative revenue range holds the scaled angle. |
| ServiceDonut.SliceAtScaled | CarDet/Core/Profile/Analytics/ServiceDonutView.swift:26-33 | The loop returns the first slice whose range `[acc, acc + revenue)` holds the angle. |
| ServiceDonut.SliceSelection | CarDet/Core/Profile/Analytics/ServiceDonutView.swift:26-33 | A slice is selected iff the angle is in `[0, charted total)`. The selected slice is in the data and has positive revenue. |
| ServiceDonut.PrefixSumIsTotal | CarDet/Core/Profile/Analytics/ServiceDonutView.swift:24-31 | The accumulator after n slices is the total revenue of the first n slices. |
| ServiceDonut.ChartKeepsTotal | CarDet/Core/Profile/Analytics/ServiceDonutView.swift:24 | With non-negative revenues, the charted total equals the total of all slices. |
| ServiceDonut.CenterRevenue | CarDet/Core/Profile/Analytics/ServiceDonutView.swift:65 | The selected slice's revenue, and otherwise the total revenue. |
| ServiceDonut.CenterTitle | CarDet/Core/Profile/Analytics/ServiceDonutView.swift:71 | The selected slice's title, and otherwise "Всего". |
| MonthPicking.MonthStart | CarDet/Core/Profile/Analytics/MonthPicker.swift:61-65 | The start of the same month, never after the date. |
| MonthPicking.MonthStartIdempotent | CarDet/Core/Profile/Analytics/MonthPicker.swift:61-65 | The month start of a month start is itself. |
| MonthPicking.CanStep | CarDet/Core/Profile/Analytics/MonthPicker.swift:44-50 | True iff the shifted month start lies within the optional min and max month starts. |
| MonthPicking.StepResult | CarDet/Core/Profile/Analytics/MonthPicker.swift:52-59 | A refused step keeps the month. An allowed one moves to the start of the month delta months on. Either way an in-bounds month stays in bounds. |
| MonthPicking.StepsStayInBounds | CarDet/Core/Profile/Analytics/MonthPicker.swift:44-59 | Any sequence of steps from an in-bounds month stays in bounds. |
| MonthPicking.DragDelta | CarDet/Core/Profile/Analytics/MonthPicker.swift:36-39 | A drag steps iff it is mostly horizontal and longer than 24 points. Leftward steps forward, otherwise back. |
| MonthPicking.MonthPicker.constructor | CarDet/Core/Profile/Analytics/MonthPicker.swift:11-14 | Stores the bound month and the optional bounds. |
| MonthPicking.MonthPicker.Step | CarDet/Core/Profile/Analytics/MonthPicker.swift:52-59 | The new month is the step result, and the bounds invariant is preserved. |
| MonthPicking.MonthPicker.DragEnded | CarDet/Core/Profile/Analytics/MonthPicker.swift:35-40 | A drag that is rejected leaves the month. Otherwise the month is stepped by the drag's delta, keeping the invariant. |
| ContactEditing.NormalizePhone | CarDet/Core/Profile/EditContactsView.swift:142-145 | None iff the trimmed phone is empty. Otherwise the trimmed text, which neither starts nor ends with whitespace. |
| ContactEditing.EmailLooksValid | CarDet/Core/Profile/EditContactsView.swift:147-150 | Accepted iff the trimmed text contains '@' and '.' and neither starts nor ends with '@'. An accepted address has at least 3 characters. |
| ContactEditing.LeadingAtRefused | CarDet/Core/Profile/EditContactsView.swift:149 | "@a.b" is refused. |
| ContactEditing.TrailingAtRefused | CarDet/Core/Profile/EditContactsView.swift:149 | "a.b@" is refused. |
| ContactEditing.MissingAtRefused | CarDet/Core/Profile/EditContactsView.swift:149 | "ab.c", which has no '@', is refused. |
| ContactEditing.MissingDotRefused | CarDet/Core/Profile/EditContactsView.swift:149 | "a@bc", which has no '.', is refused. |
| ContactEditing.InnerAtAccepted | CarDet/Core/Profile/EditContactsView.swift:149 | "a@b.c" is accepted. |
| ContactEditing.AddressShapeLength | CarDet/Core/Profile/EditContactsView.swift:149 | An '@' with text on both sides forces at least 3 characters. |
| ContactEditing.PhonePaddingIgnored | CarDet/Core/Profile/EditContactsView.swift:142-145 | Whitespace around a phone number does not change its normalised form. |
| ContactEditing.EmailPaddingIgnored | CarDet/Core/Profile/EditContactsView.swift:147-150 | Whitespace around an email does not change whether it is accepted. |
| ContactEditing.UntouchedFormUnchanged | CarDet/Core/Profile/EditContactsView.swift:152-157 | A freshly opened form with already-normalised initial values reports no change. |
| ContactEditing.UntouchedFormChanged | CarDet/Core/Profile/EditContactsView.swift:152-157 | A freshly opened form reports a change when the initial email is untrimmed or the initial phone is blank. |
| ContactEditing.EditContactsForm.constructor | CarDet/Core/Profile/EditContactsView.swift:40-59 | Fields start from the initial values, with an empty phone for a missing one, and all flags down. |
| ContactEditing.EditContactsForm.CanSave | CarDet/Core/Profile/EditContactsView.swift:159 | Saving is enabled iff the email is valid and something changed: the trimmed email, the normalised phone, the city or the avatar. |
| ContactEditing.EditContactsForm.HasChanges | CarDet/Core/Profile/EditContactsView.swift:152-157 | True iff the trimmed email differs from the initial one, the normalised phone differs from the initial phone, the city differs, or the avatar changed. |
| ContactEditing.EditContactsForm.Payload | CarDet/Core/Profile/EditContactsView.swift:163-166 | Sends the trimmed email, the normalised phone and the city name. Avatar data is sent only when the user changed it. |
| ContactEditing.EditContactsForm.Edit | CarDet/Core/Profile/EditContactsView.swift:112-121 | Typing sets the text fields and the city, and nothing else. Afterwards saving is enabled iff the new email is valid and the form differs from its initial values. In particular, a valid address that differs from the initial one once trimmed enables saving. |
| ContactEditing.EditContactsForm.ImageDataChanged | CarDet/Core/Profile/EditContactsView.swift:129-132 | The change action marks the avatar as changed iff the value differs from the one seen at the previous update and the bootstrap flag is down at that moment. |
| ContactEditing.EditContactsForm.SetImageData | CarDet/Core/Profile/EditContactsView.swift:129-132 | A lone assignment followed by the change action: it marks the avatar as changed iff the value differs and the flag is down. |
| ContactEditing.EditContactsForm.Bootstrap | CarDet/Core/Profile/EditContactsView.swift:187-203 | As written. It acts only with no image data and an avatar URL that parses. A fetched image is stored and, because the flag falls in the same block, is counted as a user change. The flag ends down. Otherwise nothing changes. |
| ContactEditing.EditContactsForm.BootstrapIntended | CarDet/Core/Profile/EditContactsView.swift:128-132 | As the comment at line 130 intends: a fetched image is stored without counting as a user change. |
| ContactEditing.OpenWithAvatarURL | CarDet/Core/Profile/EditContactsView.swift:40-59 | A freshly opened form with an avatar URL and no image data. |
| ContactEditing.DownloadedAvatarIsSaved | CarDet/Core/Profile/EditContactsView.swift:129-132 | As written: an untouched form, after its avatar download, can be saved and sends the downloaded image. |
| ContactEditing.DownloadedAvatarNotSaved | CarDet/Core/Profile/EditContactsView.swift:129-132 | As intended: after the download the untouched form has nothing to save. |
| ContactEditing.EditedAddressIsSaved | CarDet/Core/Profile/EditContactsView.swift:85-88 | Editing the address to another valid one makes the checkmark send the new trimmed address, no phone and the city name. |
| ContactEditing.EditContactsForm.TapSave | CarDet/Core/Profile/EditContactsView.swift:85-88 | When saving is enabled, emits the payload and raises `isSaving`. Otherwise nothing happens. |
| ContactEditing.EditContactsForm.FinishSave | CarDet/Core/Profile/EditContactsView.swift:171 | Lowers `isSaving`, and nothing else. |
| Text.TrimIgnoresPadding | CarDet/Core/Profile/EditContactsView.swift:143 | Trimming ignores any whitespace added on either side. |
| Text.TrimIdempotent | CarDet/Core/Profile/EditContactsView.swift:143 | Trimming twice is trimming once. |
| Users.City.Id | CarDet/Services/User/Models/UserModel.swift:16 | A city's id is its raw value. |
| Users.City.DisplayName | CarDet/Services/User/Models/UserModel.swift:18-23 | The Russian name of each city. |
| Users.CityNamesDistinct | CarDet/Services/User/Models/UserModel.swift:12-23 | Ids and display names each identify the city. |
| Users.User.Id | CarDet/Services/User/Models/UserModel.swift:28 | A user's id is its user id. |
| Users.Updating | CarDet/Services/User/Models/UserModel.swift:126-144 | Id and creation date are kept. Every given field replaces the old one, and every missing one keeps it. |
| Users.UpdatingNothing | CarDet/Services/User/Models/UserModel.swift:126-144 | Updating with no fields is the identity. |
| Users.UpdatingNeverClears | CarDet/Services/User/Models/UserModel.swift:137-142 | An optional field that was set stays set. |
| Users.UpdatingCompose | CarDet/Services/User/Models/UserModel.swift:134-143 | Two updates equal one update in which the later given fields win. |
| Users.Mocks | CarDet/Services/User/Models/UserModel.swift:77-111 | Three mock users with distinct ids. |
| Users.Mock | CarDet/Services/User/Models/UserModel.swift:73-75 | The mock user is the second mock, user_02. |
| Users.CarsFor | CarDet/Services/User/Models/UserModel.swift:113-115 | Exactly the user's cars, in their original order. |
| EditableFields.BindingGet | CarDet/Components/EditableFields.swift:21 | A missing value reads as the empty string. |
| EditableFields.BindingSet | CarDet/Components/EditableFields.swift:22 | Writing the empty string stores nothing. Otherwise the text is stored. |
| EditableFields.BindingGetSet | CarDet/Components/EditableFields.swift:20-23 | Writing then reading gives back the text. |
| EditableFields.BindingSetGet | CarDet/Components/EditableFields.swift:20-23 | Reading then writing gives back the value, except that an empty string becomes nothing. |
| EditableFields.GetPlaceholder | CarDet/Components/EditableFields.swift:54-62 | "John Doe", "example@email.com", "+1 (555) 123-4567" and "New York, NY" for the four known labels, and "" for any other. |
| EditableFields.EffectivePlaceholder | CarDet/Components/EditableFields.swift:25 | An explicit placeholder wins, and otherwise the label's default. Empty iff neither exists. |
| EditableFields.EffectivePlaceholderStable | CarDet/Components/EditableFields.swift:25 | Resolving a resolved placeholder changes nothing. |
| EditableFields.PickerGet | CarDet/Components/EditableFields.swift:117 | The stored date, or the default when there is none. |
| EditableFields.PickerSet | CarDet/Components/EditableFields.swift:118 | Picking always stores the picked date. |
| EditableFields.PickerRoundTrip | CarDet/Components/EditableFields.swift:116-119 | Picking a date then reading gives back that date. |
| DateExt.AddingTimeInterval | CarDet/Core/Extensions/Date+EXT.swift:17-22 | The shift is 86400·days + 3600·hours + 60·minutes seconds. It requires each of the three `Int` products to fit in 64 bits. |
| DateExt.AddingNothing | CarDet/Core/Extensions/Date+EXT.swift:17 | A zero shift is the identity. |
| DateExt.DayHoursMinutesAgree | CarDet/Core/Extensions/Date+EXT.swift:18-20 | One day, 24 hours and 1440 minutes are the same shift. |
| DateExt.AddingComposes | CarDet/Core/Extensions/Date+EXT.swift:17-21 | Two shifts compose into their component-wise sum. |
| DateExt.TimeRangeEnd | CarDet/Core/Extensions/Date+EXT.swift:65 | The given end, or one hour after the start. |
| DateExt.FullDayHours | CarDet/Core/Extensions/Date+EXT.swift:95 | The hours 0 to 23, increasing. |
| DateExt.StartOfWeek | CarDet/Core/Extensions/Date+EXT.swift:87-93 | The calendar's week start, or the date itself when there is none. |
| DateExt.IsSame | CarDet/Core/Extensions/Date+EXT.swift:117-120 | False against no date. Otherwise the calendar's same-day test. |
| DateExt.WeekDays | CarDet/Core/Extensions/Date+EXT.swift:103-105 | At most n days. When every day offset resolves, exactly n days, the i-th being i days after the start. |
| DateExt.WeekDaysResolved | CarDet/Core/Extensions/Date+EXT.swift:103-105 | What `compactMap` keeps: one day per offset below n that resolves, in increasing offset order, and no other. |
| DateExt.CurrentWeek | CarDet/Core/Extensions/Date+EXT.swift:97-106 | Empty without a week start, and at most 7 days. When every offset resolves, the 7 consecutive days from the week start. |
| Releases.XcodeRelease.Architectures | CarDet/Services/Xcode/Model/XcodeModel.swift:48 | The download's architectures, or none. |
| Releases.XcodeRelease.KeyFields | CarDet/Services/Xcode/Model/XcodeModel.swift:16-21 | The six key fields, in order: the download URL, the build, the number and the name (each "-" when missing), the date key and the architecture key. |
| Releases.DateKey | CarDet/Services/Xcode/Model/XcodeModel.swift:20 | "year-month-day", or "nodate" without a date. |
| Releases.OrDash | CarDet/Services/Xcode/Model/XcodeModel.swift:16-19 | The value, or "-" when it is missing. |
| Releases.ArchKey | CarDet/Services/Xcode/Model/XcodeModel.swift:21 | The architectures in sorted order, joined with ",". Every sorted arrangement of them gives this key. |
| Releases.XcodeRelease.Id | CarDet/Services/Xcode/Model/XcodeModel.swift:12-24 | "sha1:" plus the lowercased checksum when there is one. Otherwise "key:" plus the six key fields joined by "\|". |
| Releases.XcodeRelease.DisplayVersion | CarDet/Services/Xcode/Model/XcodeModel.swift:34-38 | "Xcode number (build)", or without the build when it is missing. "—" stands for a missing number. |
| Releases.ArchKeyOrderIndependent | CarDet/Services/Xcode/Model/XcodeModel.swift:21 | The architecture key depends only on the architectures, not their order. |
| Releases.IdIgnoresArchitectureOrder | CarDet/Services/Xcode/Model/XcodeModel.swift:21-23 | Reordering a release's architectures keeps its id. |
| Releases.IdKindsDisjoint | CarDet/Services/Xcode/Model/XcodeModel.swift:13-23 | A checksum id never equals a composite-key id. |
| Releases.ChecksumIdIgnoresCase | CarDet/Services/Xcode/Model/XcodeModel.swift:13-15 | Checksums that differ only in letter case give the same id. |
| Text.LexLeTotalOrder | CarDet/Services/Xcode/Model/XcodeModel.swift:21 | String ordering is a total order, so sorting the architectures is well defined. |
| ReleaseFeed.NewerOrSameTotal | CarDet/Services/Xcode/ViewModel/XcodeViewModel.swift:44-49 | The newest-first date comparison is a total preorder. |
| ReleaseFeed.Postprocess | CarDet/Services/Xcode/ViewModel/XcodeViewModel.swift:44-65 | The result is: some newest-first permutation of the feed, reduced to the first release of each id, keeping the names containing "Xcode". |
| ReleaseFeed.FirstOfEachId | CarDet/Services/Xcode/ViewModel/XcodeViewModel.swift:52-53 | The seen-set loop keeps exactly the first release of every id. |
| ReleaseFeed.DedupSubsequence | CarDet/Services/Xcode/ViewModel/XcodeViewModel.swift:52-53 | De-duplication keeps releases in their order. |
| ReleaseFeed.DedupIds | CarDet/Services/Xcode/ViewModel/XcodeViewModel.swift:51-53 | After de-duplication no id repeats, and every id of the input is still present. |
| ReleaseFeed.PostprocessedWellFormed | CarDet/Services/Xcode/ViewModel/XcodeViewModel.swift:44-65 | The kept list is newest first, has distinct ids, holds only "Xcode" names and only releases from the feed. |
| ReleaseFeed.Prefix | CarDet/Services/Xcode/ViewModel/XcodeViewModel.swift:66 | A prefix of length min(n, count). |
| ReleaseFeed.XcodeViewModel.constructor | CarDet/Services/Xcode/ViewModel/XcodeViewModel.swift:15-21 | Empty lists, no error, not loading. |
| ReleaseFeed.XcodeViewModel.HasMorePages | CarDet/Services/Xcode/ViewModel/XcodeViewModel.swift:30-32 | True iff fewer releases are visible than are loaded. |
| ReleaseFeed.XcodeViewModel.Load | CarDet/Services/Xcode/ViewModel/XcodeViewModel.swift:34-73 | Ignored while loading. On success it keeps the post-processed feed, shows its first page and clears the error. On failure it stores the message and empties both lists. It ends not loading. |
| ReleaseFeed.XcodeViewModel.AppendNextPage | CarDet/Services/Xcode/ViewModel/XcodeViewModel.swift:85-94 | Appends the next page, of at most 20 releases, when more exist and no page load is running. The visible list stays a prefix of the loaded one. |
| ReleaseFeed.XcodeViewModel.LoadMoreIfNeeded | CarDet/Services/Xcode/ViewModel/XcodeViewModel.swift:75-83 | Appends the next page exactly when the given item has the id of the last visible release and more pages exist. |
| ReleaseFeed.AfterPages | CarDet/Services/Xcode/ViewModel/XcodeViewModel.swift:85-94 | After k further pages the visible list is the first 20·(k+1) releases. |
| ReleaseFeed.PagesReachEnd | CarDet/Services/Xcode/ViewModel/XcodeViewModel.swift:85-94 | Enough pages make every loaded release visible. |

## Left out

- `OrderStore` in Analytics.swift: a `@MainActor` observable store whose only logic delegates to `countsByStatus`. That logic is modelled; the actor isolation and observation are not.
- Networking and JSON decoding of the release feed (`ProductionDataService`): the fetch outcome is a parameter of `Load`. The `async` suspension is not modelled; `Load` runs atomically.
- Calendar arithmetic:
  - Month intervals, week intervals, adding days, same-day tests and `dateComponents` are parameters, or are modelled as calendar-relative data.
  - `MonthPicker` dates are (month index, offset) pairs, and the calendar is taken to always resolve. So the `guard let` failure branches of `canStep` and `step` are not modelled.
- Number, currency and date formatting: `formatRUB`, `PriceFormatter`, `formattedTotalPrice`, `formattedUnitPrice`, the `DateFormatter` strings, `shortHuman`, `displayDate`, `downloadURL` and `URL(string:)`. These are locale services with no logic of their own here.
- `Double` arithmetic is modelled as exact `real` arithmetic. Because of this, revenue conservation and the chart totals hold exactly in the model, while in floating point they hold only up to rounding, since the sums are accumulated in different orders.
- `UUID()` and `Date()` in the mock data are parameters. The several `Date()` calls of the user mocks are modelled as one shared instant. So are the five defaulted `date: Date()` arguments of the order mocks (OrderModel.swift:156, used by 246-301).
- `CarModel.mocks` is not part of this model: `CarsFor` takes the car list as a parameter.
- SwiftUI itself:
  - view bodies, styling, animation, haptics and toasts;
  - `Task.sleep`, `dismiss` and `print`;
  - the `LabeledPickerRow` view;
  - the second `MonthPicker` declaration inside DonutView.swift.
- SwiftUI's scheduling of the `onChange` action of EditContactsView.swift:129-132 is reduced to one rule: the action runs once, after the batch of assignments it observes. A batch is a single assignment or a `MainActor.run` block.
- `Int64` overflow in Date+EXT.swift:17-22 is a precondition of `AddingTimeInterval`, because Swift traps on overflow.
- ServiceAnalytics.RevenueByService: the order among slices with equal revenue is not stated, because Swift's `sorted` is not stable. The contract states a sorted permutation only.
- ReleaseFeed.Postprocess: the order among releases with the same date is not stated, for the same reason. The contract quantifies over every newest-first permutation.
- Releases.XcodeRelease.Id: `lowercased()` is modelled on ASCII letters only, and string ordering is by character code. Unicode case mapping and collation are not modelled.
- `.whitespacesAndNewlines` is modelled as the Unicode White_Space characters, listed in `Text.IsWhitespace`.

## Findings

| source | as written | input that shows it | evidently intended | confidence | as-written member | corrected member |
|---|---|---|---|---|---|---|
| CarDet/Core/Profile/EditContactsView.swift:129-132 and 195-198 | `bootstrapAvatarIfNeeded` stores the downloaded image and lowers `isBootstrappingAvatar` in one `MainActor.run` block. The `onChange` action runs at the next view update, sees the flag down and sets `avatarChanged`. So `save` sends the downloaded avatar back as a user change (line 166). | A form with `initialAvatarURL` set and `initialAvatarData` nil, whose download succeeds. The untouched form can be saved and sends the image. | The comment at line 130: the initial load is not counted as a change. The untouched form has nothing to save. | medium; not executed; it rests on SwiftUI running `onChange` after the block | ContactEditing.DownloadedAvatarIsSaved | ContactEditing.DownloadedAvatarNotSaved |
