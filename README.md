# Axoxia booking front end — a Dafny model

Axoxia is a web front end for shipping mail, parcels and containers between
Benin, China and France. A customer fills in a shipping form, sees a price
in euros, CFA francs or yuan, and pays through PayPal. Staff use an
operations dashboard. There they edit deliveries, users and alerts, filter
tables, and read financial totals. A courier's dashboard moves deliveries
through their statuses.

This project models the logic behind those screens:

- **Pricing.** The shipping price comes from the currency table and
  conversion, the tiered per-kilogram rate and the 20% insurance surcharge.
  The payment button's charge-currency rule sends CFA francs back to euros.
- **Booking page.** Its controller (`BookingApp.App`) holds the page,
  language, currency, form, payment status and sign-in state, plus the
  handlers that change them.
- **Admin dashboard.** The in-memory lists (`AdminDashboard.DashboardState`)
  and the update, assign, create, delete, mark-read and dismiss handlers.
- **Courier dashboard.** The status transitions it offers, the local effect
  of a status change and of the availability switch, and its counters.
- **Dashboard views.** The delivery and alert filters, the alert counters
  and colour lookups, the financial totals and margin, and the
  role-filtered sidebar menu.
- **Language switch.** The English/French toggle.

Amounts are mathematical reals. Remote calls, the clock and timers become
explicit parameters or separate methods.

Files: `optional.dfy`, `seqs.dfy` (filter, map, subsequence) and `text.dfy`
(ASCII lower-casing, substring search, `split`) hold the helpers. Every
other file models one source file, as its module comment says.

## Model

| member | source | states |
|---|---|---|
| Currencies.TableWellFormed | src/utils/currencies.ts:3-22 | the table starts with the euro at rate 1, every rate is positive, and no code appears twice |
| Currencies.Convert | src/utils/currencies.ts:24-28 | the result is worth as many euros as the amount: `r * from.rate == amount * to.rate`; the sign is kept |
| Currencies.ConvertSame | src/utils/currencies.ts:24-28 | converting into the same currency is the identity |
| Currencies.ConvertFromEuro | src/utils/currencies.ts:24-28 | from the euro, conversion multiplies by the target rate |
| Currencies.RoundTrip | src/utils/currencies.ts:24-28 | euro to any currency and back gives the amount back |
| Currencies.ConvertChain | src/utils/currencies.ts:24-28 | A to B to C equals A to C |
| Currencies.ConvertViaEuro | src/utils/currencies.ts:25-27 | every conversion equals the two-step conversion through the euro, as the comment in the code says |
| Currencies.ConvertAdditive | src/utils/currencies.ts:24-28 | conversion preserves sums |
| Currencies.ConvertScales | src/utils/currencies.ts:24-28 | conversion preserves scalar multiples |
| ShippingCalculator.RatePerKg | src/hooks/useShippingCalculator.ts:17-18 | always positive; the 10-per-kg rate exactly below 7 kg |
| ShippingCalculator.CalculateCosts | src/hooks/useShippingCalculator.ts:13-31 | total is shipping plus insurance; all three are non-negative for a non-negative rate; for a positive rate the total is zero exactly when the weight is not positive |
| ShippingCalculator.CostsFor | src/hooks/useShippingCalculator.ts:13-34 | the total is the piecewise euro price in the display currency, times 1.2 when insured; for a positive rate it is zero exactly when the weight is not positive |
| ShippingCalculator.EuroPrice | src/hooks/useShippingCalculator.ts:16-19 | an independent piecewise euro price, never negative |
| ShippingCalculator.ZeroWeightCostsNothing | src/hooks/useShippingCalculator.ts:14-24 | a weight of 0 or less costs nothing, with or without insurance |
| ShippingCalculator.TierBoundary | src/hooks/useShippingCalculator.ts:18 | 10 per kg below 7 kg, 8 per kg from 7 kg on, and 7 kg itself at 8 |
| ShippingCalculator.ShippingIsConvertedEuroPrice | src/hooks/useShippingCalculator.ts:16-21 | the shipping cost is the piecewise euro price converted from the first table entry |
| ShippingCalculator.InsuranceIsFifth | src/hooks/useShippingCalculator.ts:23-24 | insurance is a fifth of shipping when requested and 0 otherwise; the total is 1.2 or 1 times shipping |
| ShippingCalculator.PriceInAnyCurrencyIsConvertedEuroPrice | src/hooks/useShippingCalculator.ts:16-24 | each cost in any currency is the euro cost converted, so surcharging before or after conversion agrees |
| ShippingCalculator.TotalIsScaledEuroPrice | src/hooks/useShippingCalculator.ts:16-24 | the total is the euro price in the display currency, times 1.2 when insured |
| ShippingCalculator.PriceDropsAtSevenKg | src/hooks/useShippingCalculator.ts:18-19 | every weight strictly between 5.6 and 7 kg costs more than 7 kg, in every currency |
| ShippingCalculator.FiveKgInEuros | src/hooks/useShippingCalculator.ts:16-24 | 5 kg uninsured in euros is 50 + 0 = 50 |
| ShippingCalculator.TenKgInsuredInCfa | src/hooks/useShippingCalculator.ts:16-24 | 10 kg insured in CFA francs is 52476.56 + 10495.312 = 62971.872 before display rounding |
| ShippingCalculator.CostsIgnoreOtherFields | src/hooks/useShippingCalculator.ts:34 | an update touching neither weight nor insurance leaves the costs unchanged |
| ShippingCalculator.CostsHook.constructor | src/hooks/useShippingCalculator.ts:6-10 | the hook starts at zero costs with no dependencies recorded |
| ShippingCalculator.CostsHook.Effect | src/hooks/useShippingCalculator.ts:12-34 | after the effect the costs are those of the current weight, insurance and currency; with unchanged dependencies nothing is recomputed |
| ShippingTypes.Merge | src/App.tsx:64-66 | each of the nine fields the update supplies takes the supplied value |
| ShippingTypes.MergeOverwritesSuppliedOnly | src/App.tsx:64-66 | for each of the nine fields, a supplied one takes the new value and an absent one keeps the old; an empty update changes nothing |
| ShippingTypes.MergeIdempotent | src/App.tsx:64-66 | applying the same update twice is applying it once |
| ShippingTypes.MergeThen | src/App.tsx:64-66 | two successive updates act as their combination, the later one winning |
| ShippingTypes.MergeKeepsPricingInputs | src/App.tsx:64-66 | an update not supplying weight or insurance keeps both |
| PayPalButton.Options | src/components/PayPalButton.tsx:20-24 | the SDK is loaded in the charge currency, for capture |
| PayPalButton.ChargeCurrency | src/components/PayPalButton.tsx:28 | never CFA francs: euros for a CFA display currency, the display currency otherwise |
| PayPalButton.ChargeAmount | src/components/PayPalButton.tsx:27 | a CFA amount is converted to euros; any other amount passes unchanged |
| PayPalButton.PurchaseUnit | src/components/PayPalButton.tsx:20-28 | the order is never in CFA francs, its currency is the one the SDK is loaded with, and other currencies pass the amount through unchanged |
| PayPalButton.ChargeCurrencyAgrees | src/components/PayPalButton.tsx:22-28 | script currency and order currency agree; they differ from the display currency exactly for CFA francs |
| PayPalButton.CfaChargedAsEuroConversion | src/components/PayPalButton.tsx:27 | a CFA amount is charged as its conversion to euros |
| PayPalButton.QuoteChargeMatchesEuroQuote | src/components/PayPalButton.tsx:27-28 | a quote shown in CFA francs is charged exactly the euro quote for the same parcel; others are charged as shown |
| LanguageToggle.Toggle | src/components/LanguageToggle.tsx:12 | a click requests the other language |
| LanguageToggle.Label | src/components/LanguageToggle.tsx:17 | the label is never the current language's code |
| LanguageToggle.LabelNamesTarget | src/components/LanguageToggle.tsx:12-17 | the label names the language a click switches to |
| LanguageToggle.ToggleTwice | src/components/LanguageToggle.tsx:12 | two clicks return to the starting language |
| BookingApp.Translate | src/App.tsx:62 | the current language's text when present and non-empty, otherwise the key itself; empty only for an empty key |
| BookingApp.BlankTextFallsBackToKey | src/App.tsx:62 | a row blank in French shows the key in French and its English text in English |
| BookingApp.App.constructor | src/App.tsx:21-58 | English, home page, the first table currency (EUR), no payment panel, idle, anonymous client, empty form |
| BookingApp.App.Costs | src/App.tsx:60 | the total is shipping plus insurance; in a table currency neither is negative |
| BookingApp.App.ShipDisabled | src/App.tsx:426 | disabled exactly when the total is zero, which for a table currency is exactly when the weight is not positive |
| BookingApp.App.PayDisabled | src/App.tsx:456 | disabled exactly while the status is processing; in every valid state, which no handler leaves, it is enabled |
| BookingApp.App.UpdateShippingData | src/App.tsx:64-66 | the form becomes the merge of old form and update, every other field is kept, and costs stay put unless weight or insurance is supplied |
| BookingApp.App.HandleShipSubmit | src/App.tsx:91-94 | the payment panel opens; nothing else changes |
| BookingApp.App.HandlePaymentSuccess | src/App.tsx:68-69 | status becomes success; nothing else changes |
| BookingApp.App.PaymentSuccessTimeout | src/App.tsx:78-82 | the panel closes and the status returns to idle |
| BookingApp.App.HandlePaymentError | src/App.tsx:85-87 | status becomes error; nothing else changes |
| BookingApp.App.PaymentErrorTimeout | src/App.tsx:88 | the status returns to idle, the panel stays as it was |
| BookingApp.App.CancelPayment | src/App.tsx:461 | the panel closes, the status is untouched |
| BookingApp.App.HandleAdminLogin | src/App.tsx:98-102 | role admin, signed in, admin page; the stored user is untouched |
| BookingApp.App.HandleLogout | src/App.tsx:104-109 | role client, signed out, no user, home page |
| BookingApp.App.HandleAuthSuccess | src/App.tsx:111-124 | the user is stored and signed in; the role follows the profile only when there is one, whatever role it names; the page switches to admin only for an admin profile |
| BookingApp.App.Navigate | src/App.tsx:139 | the page becomes the requested one; nothing else changes |
| BookingApp.App.SetMenuOpen | src/App.tsx:168 | the menu flag takes the given value |
| BookingApp.App.SelectCurrency | src/App.tsx:141 | the display currency changes and the costs become the form's costs in it |
| BookingApp.App.ToggleLanguage | src/App.tsx:182 | the language becomes the other one |
| BookingApp.SuccessfulPaymentRoundTrip | src/App.tsx:68-94 | submit, success, then the timer leave the panel closed, idle, the form intact |
| BookingApp.FailedPaymentRoundTrip | src/App.tsx:85-94 | submit, error, then the timer leave the panel open and idle |
| BookingApp.AdminSessionRoundTrip | src/App.tsx:98-109 | admin login then logout returns to the anonymous client on the home page |
| AdminTypes.Delivery.Apply | src/components/admin/AdminDashboard.tsx:196 | each of the 21 fields the update supplies takes the supplied value |
| AdminTypes.DeliveryApplyKeepsUnsupplied | src/components/admin/AdminDashboard.tsx:196 | each of the 21 fields the update does not supply keeps the delivery's value |
| AdminTypes.User.Apply | src/components/admin/AdminDashboard.tsx:215 | each of the nine fields takes the supplied value when supplied and keeps its own otherwise |
| AdminTypes.DeliveryApplyLaws | src/components/admin/AdminDashboard.tsx:196 | the spread update is idempotent, an empty update is the identity, and the id stays when not supplied |
| AdminTypes.UserApplyLaws | src/components/admin/AdminDashboard.tsx:215 | the same laws for users |
| AdminDashboard.UpdateDeliveries | src/components/admin/AdminDashboard.tsx:194-198 | same length and order; matching deliveries receive the update, every other one is unchanged |
| AdminDashboard.AssignCourierEffect | src/components/admin/AdminDashboard.tsx:200-202 | a matching delivery gets the courier and status assigned with all other fields kept; others are unchanged |
| AdminDashboard.UpdateKeepsIds | src/components/admin/AdminDashboard.tsx:194-198 | an update without an id keeps every delivery's id in place |
| AdminDashboard.UpdateUsers | src/components/admin/AdminDashboard.tsx:213-217 | same length; only users with the matching id change |
| AdminDashboard.RemoveUser | src/components/admin/AdminDashboard.tsx:219-221 | no user with the id is left, every other user survives as often as before, in the original order |
| AdminDashboard.NewUser | src/components/admin/AdminDashboard.tsx:204-209 | id `user_` plus the stamp, the given creation time, and every submitted field: e-mail, names, role, phone, address and active flag |
| AdminDashboard.MarkRead | src/components/admin/AdminDashboard.tsx:223-227 | same length; matching alerts become read, others are unchanged |
| AdminDashboard.MarkReadIdempotent | src/components/admin/AdminDashboard.tsx:223-227 | marking read twice equals marking read once |
| AdminDashboard.RemoveAlert | src/components/admin/AdminDashboard.tsx:229-231 | no alert with the id is left; the rest survive as often as before, in order |
| AdminDashboard.NewAlert | src/components/admin/AdminDashboard.tsx:233-238 | id `alert_` plus the stamp, the given creation time, and every submitted field, including the delivery and user it links to |
| AdminDashboard.DashboardState.constructor | src/components/admin/AdminDashboard.tsx:23 | starts on the dashboard page with the initial lists |
| AdminDashboard.DashboardState.ChangePage | src/components/admin/AdminDashboard.tsx:23 | the page changes, the lists do not |
| AdminDashboard.DashboardState.UpdateDelivery | src/components/admin/AdminDashboard.tsx:194-198 | deliveries become the updated list; users, alerts and page unchanged |
| AdminDashboard.DashboardState.AssignCourier | src/components/admin/AdminDashboard.tsx:200-202 | matching deliveries carry the courier and status assigned; the rest of the state unchanged |
| AdminDashboard.DashboardState.CreateUser | src/components/admin/AdminDashboard.tsx:204-211 | exactly one new user appended at the end |
| AdminDashboard.DashboardState.UpdateUser | src/components/admin/AdminDashboard.tsx:213-217 | users become the updated list; the rest unchanged |
| AdminDashboard.DashboardState.DeleteUser | src/components/admin/AdminDashboard.tsx:219-221 | no user with the id remains; the rest unchanged |
| AdminDashboard.DashboardState.MarkAlertAsRead | src/components/admin/AdminDashboard.tsx:223-227 | alerts become the marked list; the rest unchanged |
| AdminDashboard.DashboardState.DismissAlert | src/components/admin/AdminDashboard.tsx:229-231 | no alert with the id remains; the rest unchanged |
| AdminDashboard.DashboardState.CreateAlert | src/components/admin/AdminDashboard.tsx:233-240 | the new alert is first and the old list follows unchanged |
| DriverDashboard.OfferedStatuses | src/components/driver/DriverDashboard.tsx:395-420 | failed is offered exactly from assigned or in transit, in transit exactly from assigned, delivered exactly from in transit |
| DriverDashboard.OfferedTransitions | src/components/driver/DriverDashboard.tsx:395-420 | two choices from assigned and from in transit, none otherwise; every offered status is further along |
| DriverDashboard.WithStatus | src/components/driver/DriverDashboard.tsx:76-79 | the status is the new one, the delivery time is stamped exactly on delivered, and no other field changes |
| DriverDashboard.ApplyStatus | src/components/driver/DriverDashboard.tsx:89-93 | same length; matching deliveries get the status change, others are unchanged |
| DriverDashboard.CountStatus | src/components/driver/DriverDashboard.tsx:143-145 | at most the number of deliveries, and zero exactly when none has the status |
| DriverDashboard.DeliveryStats | src/components/driver/DriverDashboard.tsx:141-145 | total is the list length and each counter is at most the total |
| DriverDashboard.StatsWithinTotal | src/components/driver/DriverDashboard.tsx:141-145 | the three counters together never exceed the total |
| DriverDashboard.StatusChangeMovesOne | src/components/driver/DriverDashboard.tsx:89-93 | with distinct ids, changing one delivery's status keeps the total, takes it out of its old status's counter and into its new one's, and leaves every other counter alone |
| DriverDashboard.DriverState.constructor | src/components/driver/DriverDashboard.tsx:37-40 | the loaded profile and deliveries, nothing selected |
| DriverDashboard.DriverState.CurrentStats | src/components/driver/DriverDashboard.tsx:141-142 | the total counts the current deliveries |
| DriverDashboard.DriverState.Select | src/components/driver/DriverDashboard.tsx:40 | the chosen delivery is selected; the lists are unchanged |
| DriverDashboard.DriverState.CloseDialog | src/components/driver/DriverDashboard.tsx:40 | nothing is selected; the lists are unchanged |
| DriverDashboard.DriverState.UpdateDeliveryStatus | src/components/driver/DriverDashboard.tsx:74-99 | on success the list takes the status change and the dialog closes; on a reported error nothing changes |
| DriverDashboard.DriverState.ToggleAvailability | src/components/driver/DriverDashboard.tsx:101-117 | without a profile or on a reported error nothing changes; otherwise availability flips and nothing else changes |
| OperationsTracking.FilteredDeliveries | src/components/admin/OperationsTracking.tsx:24-30 | a delivery is listed exactly when it matches the search and status filter, as often as it occurs; the listing keeps the original order |
| OperationsTracking.ShownHaveSelectedStatus | src/components/admin/OperationsTracking.tsx:28 | a listed delivery has the selected status unless the filter is all |
| OperationsTracking.UnfilteredShowsAll | src/components/admin/OperationsTracking.tsx:24-30 | an empty search with all statuses lists every delivery in order |
| OperationsTracking.FilterAgainChangesNothing | src/components/admin/OperationsTracking.tsx:24-30 | filtering the listing again with the same settings changes nothing |
| OperationsTracking.StatusColor | src/components/admin/OperationsTracking.tsx:32-42 | grey exactly for pending, cancelled and any status outside the table; assigned, in transit, delivered and failed are coloured |
| OperationsTracking.StatusColorsDistinct | src/components/admin/OperationsTracking.tsx:32-42 | the four coloured statuses have four different colours |
| OperationsTracking.PriorityColor | src/components/admin/OperationsTracking.tsx:44-52 | grey exactly for a priority outside the four the table lists |
| OperationsTracking.PriorityColorTable | src/components/admin/OperationsTracking.tsx:44-52 | each declared priority has its own non-grey colour; anything else is grey |
| AlertsManagement.FilteredAlerts | src/components/admin/AlertsManagement.tsx:34-40 | an alert is listed exactly when it matches search, severity and type, as often as it occurs; order is kept |
| AlertsManagement.ShownAlertsMatch | src/components/admin/AlertsManagement.tsx:34-40 | a listed alert has the selected severity and type and its title or message contains the search term |
| AlertsManagement.UnfilteredShowsAll | src/components/admin/AlertsManagement.tsx:34-40 | no search and both filters at all list every alert |
| AlertsManagement.UnreadCount | src/components/admin/AlertsManagement.tsx:42 | at most the number of alerts, and zero exactly when every alert is read |
| AlertsManagement.CriticalCount | src/components/admin/AlertsManagement.tsx:43 | at most the number of alerts, and zero exactly when none is critical |
| AlertsManagement.MarkReadLowersUnread | src/components/admin/AlertsManagement.tsx:42 | marking an alert read never raises the unread count and leaves that alert read |
| AlertsManagement.SeverityColor | src/components/admin/AlertsManagement.tsx:45-53 | every severity colour, the grey default included, is background, text and border classes of one colour family |
| AlertsManagement.TonedSplit | src/components/admin/AlertsManagement.tsx:165 | splitting such a colour at spaces gives its three classes |
| AlertsManagement.UnreadBorder | src/components/admin/AlertsManagement.tsx:165 | for every severity string the third class exists and is a `border-` class |
| AlertsManagement.TypeColor | src/components/admin/AlertsManagement.tsx:65-73 | grey exactly for a type outside delay, incident, system and payment |
| AlertsManagement.TypeColorsDistinct | src/components/admin/AlertsManagement.tsx:65-73 | each declared alert type is in the table and has a colour of its own |
| AlertsManagement.AlertsPage.constructor | src/components/admin/AlertsManagement.tsx:19-32 | empty search, both filters all, dialog closed, blank draft |
| AlertsManagement.AlertsPage.EditDraft | src/components/admin/AlertsManagement.tsx:24 | the draft changes, nothing else |
| AlertsManagement.AlertsPage.HandleCreateAlert | src/components/admin/AlertsManagement.tsx:75-87 | the submitted alert is the draft; the draft is reset and the dialog closes |
| FinancialTracking.TotalRevenue | src/components/admin/FinancialTracking.tsx:23-25 | zero when no record is completed revenue; never negative when no amount is |
| FinancialTracking.TotalCosts | src/components/admin/FinancialTracking.tsx:27-29 | zero when no record is a cost; never negative when no amount is |
| FinancialTracking.TotalRefunds | src/components/admin/FinancialTracking.tsx:31-33 | zero when no record is a refund; never negative when no amount is |
| FinancialTracking.NetProfit | src/components/admin/FinancialTracking.tsx:35 | profit plus costs plus refunds is the revenue |
| FinancialTracking.ProfitMargin | src/components/admin/FinancialTracking.tsx:36 | margin times revenue is 100 times profit when revenue is positive, else 0 |
| FinancialTracking.RevenueByService | src/components/admin/FinancialTracking.tsx:39-43 | three shares that add up to the revenue |
| FinancialTracking.SumAppend | src/components/admin/FinancialTracking.tsx:25 | a sum over a concatenation adds up |
| FinancialTracking.NoRecordsNoMoney | src/components/admin/FinancialTracking.tsx:23-36 | no records give zero totals, profit and margin |
| FinancialTracking.TotalsAdditive | src/components/admin/FinancialTracking.tsx:23-33 | each total splits over two batches of records |
| FinancialTracking.OneMoreRecord | src/components/admin/FinancialTracking.tsx:23-33 | one more record moves only the total of its kind; uncompleted revenue moves none |
| FinancialTracking.SumNonNegative | src/components/admin/FinancialTracking.tsx:25 | non-negative amounts give a non-negative sum |
| FinancialTracking.MarginAtMostHundred | src/components/admin/FinancialTracking.tsx:35-36 | with non-negative amounts the margin never exceeds 100 |
| AdminLayout.VisibleItems | src/components/admin/AdminLayout.tsx:40 | an item is shown exactly when its roles include the user's; menu order is kept |
| AdminLayout.AdminSeesEverything | src/components/admin/AdminLayout.tsx:31-40 | an administrator sees the whole menu in order |
| AdminLayout.CourierItems | src/components/admin/AdminLayout.tsx:31-40 | a courier's menu is the first, second and fifth table entries, in that order |
| AdminLayout.CourierSeesThree | src/components/admin/AdminLayout.tsx:31-40 | a courier sees dashboard, operations and alerts, in that order |
| AdminLayout.OthersSeeNothing | src/components/admin/AdminLayout.tsx:31-40 | any other role sees no item |
| AdminLayout.AdminOnlyRoles | src/components/admin/AdminLayout.tsx:34-37 | in the menu table, users, financial and settings list the administrator alone |
| AdminLayout.AdminOnlyItems | src/components/admin/AdminLayout.tsx:34-37 | users, financial and settings are shown to administrators only |

## Left out

- Rendering, styling, icons and the static translation table (`src/utils/translations.ts` is not part of this model); `t` takes the table as a parameter.
- The remote database calls of the courier dashboard: each becomes a success or error outcome parameter, and loading the courier's profile and deliveries (`fetchDriverData`) is not modelled.
- The confirmation e-mail sent after a successful payment (`src/services/emailService.ts` is not part of this model) and the PayPal SDK itself.
- `Date.now()` and `new Date().toISOString()`: the stamps become string parameters. The timers of the payment handlers become the methods `PaymentSuccessTimeout` and `PaymentErrorTimeout`.
- `todayDeliveries` in the courier's counters depends on the clock and is not modelled.
- `toFixed(2)` and `formatCurrency`: amounts are exact reals, with no IEEE double rounding or two-decimal display.
- `toLowerCase` is modelled for ASCII letters only.
- Updates that set an optional field back to `undefined` are not modelled: a patch can only supply a value.
- The courier dashboard's own colour lookups (src/components/driver/DriverDashboard.tsx:119-139) are identical to the operations table's and are not modelled twice.
- The user management, auth dialog and overview components render the state and are not modelled.
- ShippingCalculator.CostsHook.Effect: the render/effect timing of React is not modelled; the booking page uses the settled costs.
- OperationsTracking.StatusColor, OperationsTracking.PriorityColor, AlertsManagement.SeverityColor, AlertsManagement.TypeColor, AlertsManagement.UnreadBorder: the source looks colours up in object literals (`colors[key] || default`). The model's default branch covers every key except names inherited from `Object.prototype` (`constructor`, `toString`, `__proto__` and the like). For those keys JavaScript returns the inherited member, and `split(' ')` on a severity colour would throw. The typed fields never carry such keys, and the contracts about the default (`StatusColor`, `PriorityColor`, `PriorityColorTable`, `TypeColor`, `SeverityColor`, `UnreadBorder`) do not cover them.
- DriverDashboard.DriverState.ToggleAvailability, DriverDashboard.DriverState.UpdateDeliveryStatus: each asynchronous handler is modelled as one atomic step, from reading the state to applying the remote outcome. The source awaits the database in between. `toggleAvailability` computes the new flag before its `await`, so two clicks during one round trip both write the negation of the original value, while two model calls flip it twice. `updateDeliveryStatus` clears the selection after its `await`, so it can close a dialog opened while the request was in flight. The model does not capture these interleavings.
- BookingApp.App.Valid: the status `processing` is declared but no handler ever sets it, so the pay button is never disabled.
