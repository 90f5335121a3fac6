# Fuel-station daily ledger, modelled in Dafny

This project models the core of a fuel-station ledger web app written in
React. The modelled core is seven parts:

- **Daily stats** (`DailyStats`). The main screen folds the day's fuel sales,
  credit sales, other income and expenses into nine figures. The headline
  figure is cash in hand: cash fuel sales plus income, minus expenses, minus
  credit given. The screen also holds the default fuel catalogue.
- **Fuel catalogue** (`FuelSettings`). This is the shared `fuelSettings`
  object: fuel-type name to price and nozzle count. Its keys keep insertion
  order.
- **Sale entry** (`SalesTracker`). It names nozzles (`P1`, `D2`, `PR1`, ...).
  It turns meter readings and a rate into litres and an amount, rounded to two
  decimals. Sales are added, updated and deleted.
- **Price screen** (`PriceConfiguration`). Draft prices are saved all or
  nothing. Drafts can be reset, or filled by a quick percentage change.
- **Header settings menu** (`HeaderSettings`). Nozzle counts are stepped
  within [1, 10]. Fuel types are added or removed, and the catalogue can be
  reset to its defaults.
- **Single-sale calculator** (`PetrolPumpCalculator`). It computes the total
  and the change, and keeps a history of completed sales.
- **All-records card** (`UnifiedRecords`). It counts the day's records and
  draws one group per non-empty kind.

Shared support modules:

- `Ledger`: the record types, the same-day filter and sums.
- `Decimal`: `toFixed(2)` rounding, decimal digit strings, clamping and ASCII
  case mapping.
- `Wrappers`: `Option`.

How the program maps onto the model:

- React state that a screen updates becomes the fields of that screen's
  `class`. Event handlers become methods whose `ensures` give the whole new
  state.
- State lifted into the main screen and passed down together with its setter
  becomes a field of the receiving screen's class, set by its constructor:
  `fuelSettings` in the price screen and the settings menu, `salesData` in
  the sale-entry screen. Props passed without a setter, such as
  `fuelSettings` in the sale-entry screen, become method parameters.
- The main screen's own lists and selected date have no class. They are the
  parameters of the pure `DailyStats.GetTodayStats`, which computes the
  day's figures from them.
- The clock (`Date.now()`, `toLocaleString()`) becomes a parameter.
- Money and litres are exact reals. `toFixed(2)` followed by `parseFloat` is
  `Decimal.Round2`: nearest hundredth, ties away from zero.
- An empty number box is `None`. An unparsable price draft (NaN) is also
  `None`.

## Behaviour worth knowing

- **Sale amount.** Litres and amount are rounded to two decimals each, and
  the amount is rounded from the *unrounded* litres
  (frontend/src/components/SalesTracker.jsx:112-120). A stored amount can
  therefore differ from stored litres × rate: 0.125 l at 100 is stored as
  0.13 l and 12.50. See `SalesTracker.AmountNotStoredLitersTimesRate`.
- **Reading check.** The error message says "End reading must be greater
  than start reading" (frontend/src/components/SalesTracker.jsx:133-139),
  but the test is on the *rounded* litres. A sale is accepted only when the
  end exceeds the start by at least 0.005. See `SalesTracker.CheckSale`.
- **Quick price change.** `applyQuickPriceChange` scales every draft price
  and does not clamp (frontend/src/components/PriceConfiguration.jsx:108-121).
  The menu offers only ±2% and ±5%, but the function itself turns a cut of
  100% or more into drafts of zero or below, and saving such drafts is then
  refused as a whole. See `PriceConfiguration.QuickCutOfAllIsRefused`.

## Model

| member | source | states |
|---|---|---|
| DailyStats.GetTodayStats | frontend/src/components/ZAPTRStyleCalculator.jsx:244-283 | Each figure is the sum over exactly the records dated on the selected day. Sales count as cash only when of type cash. Cash in hand = total income − expenses − credit, with no lower bound. Total sales = cash sales + credit. |
| DailyStats.StatsOfFilteredLists | frontend/src/components/ZAPTRStyleCalculator.jsx:245-248 | Pre-filtering the four lists to the day changes no figure. |
| DailyStats.OtherDaySaleIgnored | frontend/src/components/ZAPTRStyleCalculator.jsx:245 | A sale of another day, at any position, leaves every figure unchanged. |
| DailyStats.OtherDayCreditIgnored | frontend/src/components/ZAPTRStyleCalculator.jsx:246 | A credit of another day, at any position, leaves every figure unchanged. |
| DailyStats.NewSaleEffect | frontend/src/components/ZAPTRStyleCalculator.jsx:251-270 | A new sale moves litres by its litres. It moves cash sales and cash in hand by its amount only if it is a cash sale of the day. Credit, income and expenses do not move. |
| DailyStats.CreditStatusIgnored | frontend/src/components/ZAPTRStyleCalculator.jsx:260 | A credit's paid or pending status does not affect any figure. |
| DailyStats.EmptyDayIsZero | frontend/src/components/ZAPTRStyleCalculator.jsx:244-283 | A day with no records has all nine figures zero. |
| DailyStats.CashInHandNotClamped | frontend/src/components/ZAPTRStyleCalculator.jsx:263-270 | A single expense of e gives cash in hand −e. |
| DailyStats.SampleDay | frontend/src/components/ZAPTRStyleCalculator.jsx:82-200 | On the screen's sample day: cash sales 4130.76, litres 40.30, credit 4487.50, income 15000 and expenses 3000 give cash in hand 11643.26. |
| FuelSettings.DefaultsValid | frontend/src/components/ZAPTRStyleCalculator.jsx:152-157 | The default catalogue lists each name once. Its prices are positive and its counts lie in [1, 10]. |
| FuelSettings.KeysListed | frontend/src/components/HeaderSettings.jsx:50 | In a valid catalogue a name is a key exactly when it is listed. |
| FuelSettings.Put | frontend/src/components/HeaderSettings.jsx:61-67 | Setting an entry keeps an existing key's place and appends a new key last. The result stays valid and its map is the old map with the entry set. |
| FuelSettings.Delete | frontend/src/components/HeaderSettings.jsx:78-79 | Deleting drops the key from the map, keeps the catalogue valid, and splices the name out of the order where it stood. Every other name keeps its place. An absent name leaves the order as it was. |
| FuelSettings.DeleteKeepsOrder | frontend/src/components/HeaderSettings.jsx:78-79 | Filtering the order by name removes exactly the one place where that name stands. |
| FuelSettings.WithoutSplice | frontend/src/components/HeaderSettings.jsx:78-79 | Removing a name that occurs once, between two runs without it, joins the two runs unchanged. |
| FuelSettings.DeleteUndoesPut | frontend/src/components/HeaderSettings.jsx:61-79 | Adding a new key and deleting it restores the catalogue exactly, order included. |
| Decimal.Round2 | frontend/src/components/SalesTracker.jsx:119 | The rounded value is a whole number of hundredths, within 0.005 of the input, with the input's sign. |
| Decimal.Round2Positive | frontend/src/components/SalesTracker.jsx:133 | The rounded value is positive iff the input is at least 0.005. |
| Decimal.Round2OfCents | frontend/src/components/PriceConfiguration.jsx:112 | Rounding leaves a whole number of hundredths unchanged. |
| Decimal.Clamp | frontend/src/components/HeaderSettings.jsx:35 | The result lies in [lo, hi]. It is v when v is in range, else the nearer bound. |
| Decimal.NatToString | frontend/src/components/SalesTracker.jsx:70 | The decimal form is non-empty, all digits, and has no leading zero. |
| Decimal.DigitsValueOfNatToString | frontend/src/components/SalesTracker.jsx:70 | Reading the decimal form back gives the number. |
| Decimal.PrefixedNatInjective | frontend/src/components/SalesTracker.jsx:70 | Under one prefix, distinct numbers give distinct ids. |
| SalesTracker.NozzlePrefix | frontend/src/components/SalesTracker.jsx:60-67 | The prefix is PO for power and PR for premium, in any letter case. Otherwise it is the first character upper-cased. It is empty exactly for an empty name. |
| SalesTracker.NozzlePrefixIgnoresCase | frontend/src/components/SalesTracker.jsx:60-67 | Fuel types differing only in letter case get the same nozzle prefix. |
| SalesTracker.NozzleIds | frontend/src/components/SalesTracker.jsx:69-76 | A fuel type with n nozzles gets max(n, 0) ids. The k-th id is the prefix followed by k. |
| SalesTracker.NozzleIdsDistinct | frontend/src/components/SalesTracker.jsx:69-76 | The ids of one fuel type are pairwise distinct. |
| SalesTracker.GenerateNozzlesForFuelType | frontend/src/components/SalesTracker.jsx:53-78 | An unknown fuel type has no nozzles. Otherwise there is one nozzle per count, the k-th with id prefix+k and name "Nozzle " + id. |
| SalesTracker.GenerateNozzles | frontend/src/components/SalesTracker.jsx:80-98 | The loop builds exactly the catalogue's ids, type by type in catalogue order, one per declared nozzle. |
| SalesTracker.AllNozzleIdsLength | frontend/src/components/SalesTracker.jsx:80-98 | There is one id per declared nozzle. |
| SalesTracker.DefaultNozzles | frontend/src/components/SalesTracker.jsx:80-98 | The default catalogue gives P1, P2, P3, D1, D2, C1, C2 and PR1, which are the nozzles in frontend/src/utils/mockData.js. |
| SalesTracker.SharedInitialSharesIds | frontend/src/components/SalesTracker.jsx:65-67 | Petrol and Propane both get the id "P1": ids are not unique across fuel types. |
| SalesTracker.CalculateSale | frontend/src/components/SalesTracker.jsx:112-120 | The result is None iff a reading or the rate is empty. Otherwise litres and amount are each within 0.005 of the exact values, in hundredths. |
| SalesTracker.CheckSale | frontend/src/components/SalesTracker.jsx:122-151 | A missing field is rejected iff some field is empty. An invalid reading is rejected iff end − start < 0.005. An accepted record carries the form's fields, the id and the day, plus litres and amount derived from its own readings and rate. |
| SalesTracker.AcceptedMeansEndAboveStart | frontend/src/components/SalesTracker.jsx:133-140 | An accepted sale has end > start. Equal or reversed readings are rejected. |
| SalesTracker.AmountNotStoredLitersTimesRate | frontend/src/components/SalesTracker.jsx:116-119 | 0.125 l at 100 is stored as 0.13 l and 12.50, which is not litres × rate. |
| SalesTracker.FormOf | frontend/src/components/SalesTracker.jsx:177-186 | Editing fills every field of the form from the record: nozzle, fuel type, sale type, both readings and the rate. |
| SalesTracker.EditRoundTrip | frontend/src/components/SalesTracker.jsx:142-154 | Re-submitting an accepted sale unchanged gives back the same record. |
| SalesTracker.ReplaceById | frontend/src/components/SalesTracker.jsx:154 | Updating keeps the length. Exactly the records with the id are replaced. |
| SalesTracker.RemoveById | frontend/src/components/SalesTracker.jsx:190 | Deleting leaves only records from the list that carry other ids. |
| SalesTracker.RemoveByIdMultiset | frontend/src/components/SalesTracker.jsx:190 | Every record with the id goes, and every other record stays as often as before. |
| SalesTracker.RemoveByIdConcat | frontend/src/components/SalesTracker.jsx:190 | Deleting distributes over concatenation, so the order is kept. |
| SalesTracker.RemoveAbsentId | frontend/src/components/SalesTracker.jsx:190 | Deleting an id that no record carries changes nothing. |
| SalesTracker.SalesScreen.constructor | frontend/src/components/SalesTracker.jsx:35-43 | The form starts blank with type cash, and nothing is being edited. |
| SalesTracker.SalesScreen.HandleFuelChange | frontend/src/components/SalesTracker.jsx:102-110 | Sets the fuel type and clears the nozzle. The rate becomes the catalogue price, or empty for an unknown type. |
| SalesTracker.SalesScreen.SetNozzle | frontend/src/components/SalesTracker.jsx:234 | Only the form's nozzle changes. The edited id and the sales are unchanged. |
| SalesTracker.SalesScreen.SetStartReading | frontend/src/components/SalesTracker.jsx:258 | Only the form's start reading changes. The edited id and the sales are unchanged. |
| SalesTracker.SalesScreen.SetEndReading | frontend/src/components/SalesTracker.jsx:269 | Only the form's end reading changes. The edited id and the sales are unchanged. |
| SalesTracker.SalesScreen.SetRate | frontend/src/components/SalesTracker.jsx:281 | Only the form's rate changes. The edited id and the sales are unchanged. |
| SalesTracker.SalesScreen.ResetForm | frontend/src/components/SalesTracker.jsx:165-175 | The form is blank and nothing is being edited. The sales list is unchanged. |
| SalesTracker.SalesScreen.EditSale | frontend/src/components/SalesTracker.jsx:177-187 | The form holds the record and its id is marked as being edited. |
| SalesTracker.SalesScreen.DeleteSale | frontend/src/components/SalesTracker.jsx:189-192 | The list loses that id's records and stays all-derived. The edit mark stays. |
| SalesTracker.SalesScreen.HandleSubmit | frontend/src/components/SalesTracker.jsx:122-163 | A refused form changes nothing. An accepted edit replaces the records with the edited id, keeping that id (an id of 0 counts as not editing). A new sale goes first with id `now`. Afterwards the form is reset and the list stays all-derived. |
| SalesTracker.UpdateAfterDeleteIsLost | frontend/src/components/SalesTracker.jsx:154-190 | Deleting the record under edit and then submitting the edit adds nothing. |
| SalesTracker.ReplaceKeepsIds | frontend/src/components/SalesTracker.jsx:143-154 | An update keeps every record's id. |
| PriceConfiguration.Repriced | frontend/src/components/PriceConfiguration.jsx:52-68 | Repricing keeps the order, the keys and every nozzle count, and keeps the catalogue valid. |
| PriceConfiguration.SavedPricesAreDrafts | frontend/src/components/PriceConfiguration.jsx:54-68 | After a save every catalogue entry with a draft has that draft as its price. Entries without a draft are untouched. |
| PriceConfiguration.SavePreservesSane | frontend/src/components/PriceConfiguration.jsx:56-66 | A successful save keeps every price positive. |
| PriceConfiguration.NoChangesIsIdentity | frontend/src/components/PriceConfiguration.jsx:61-85 | Without a differing valid draft for a listed fuel, repricing is the identity. |
| PriceConfiguration.ChangesShow | frontend/src/components/PriceConfiguration.jsx:61-87 | With such a draft, the saved catalogue differs from the old one. |
| PriceConfiguration.CurrentPrices | frontend/src/components/PriceConfiguration.jsx:30-37 | The drafts have one entry per fuel type, each its current price. |
| PriceConfiguration.CurrentPricesNoChanges | frontend/src/components/PriceConfiguration.jsx:79-85 | Saving the current prices finds no change, and no error when the prices are positive. |
| PriceConfiguration.QuickDraft | frontend/src/components/PriceConfiguration.jsx:108-113 | Each draft is within 0.005 of price × (1 + p/100), in hundredths, one per fuel type. |
| PriceConfiguration.QuickCutOfAllIsRefused | frontend/src/components/PriceConfiguration.jsx:56-77 | After a cut of 100% or more, saving is refused as invalid. |
| PriceConfiguration.QuickZeroIsCurrent | frontend/src/components/PriceConfiguration.jsx:108-113 | A 0% change of whole-paise prices gives the current drafts. |
| PriceConfiguration.PriceScreen.constructor | frontend/src/components/PriceConfiguration.jsx:30-37 | The drafts start as the current prices. |
| PriceConfiguration.PriceScreen.UpdateTempPrice | frontend/src/components/PriceConfiguration.jsx:41-46 | Exactly that fuel's draft is set. |
| PriceConfiguration.PriceScreen.SavePrices | frontend/src/components/PriceConfiguration.jsx:48-93 | Any invalid draft refuses the save and changes nothing. With no change, nothing changes either. Otherwise the catalogue gets every valid draft of a listed fuel. The drafts stay and the catalogue stays valid. |
| PriceConfiguration.PriceScreen.ResetPrices | frontend/src/components/PriceConfiguration.jsx:95-106 | The drafts become the current prices and the catalogue is unchanged. |
| PriceConfiguration.PriceScreen.ApplyQuickPriceChange | frontend/src/components/PriceConfiguration.jsx:108-120 | The drafts become the quick draft of the catalogue. The catalogue is unchanged. |
| PriceConfiguration.DraftFromCatalogue | frontend/src/components/PriceConfiguration.jsx:97-99 | The loop builds exactly the current prices. |
| HeaderSettings.TrimStart | frontend/src/components/HeaderSettings.jsx:41 | Strips a blank prefix and leaves a non-space first character or nothing. |
| HeaderSettings.TrimEnd | frontend/src/components/HeaderSettings.jsx:41 | Strips a blank suffix and leaves a non-space last character or nothing. |
| HeaderSettings.TrimEmptyIffBlank | frontend/src/components/HeaderSettings.jsx:41 | A name trims to empty iff it is all white space. |
| HeaderSettings.WithNozzleCount | frontend/src/components/HeaderSettings.jsx:30-38 | The count becomes clamp(1, 10, count + delta). The price, the order, the keys and every other entry are kept. |
| HeaderSettings.NozzleStepUndone | frontend/src/components/HeaderSettings.jsx:30-38 | Below the cap, a step up then down restores the catalogue. |
| HeaderSettings.NozzleStepAtCap | frontend/src/components/HeaderSettings.jsx:35 | At 10 nozzles a step up changes nothing. |
| HeaderSettings.TransitionsKeepSane | frontend/src/components/HeaderSettings.jsx:30-101 | Stepping, adding, deleting and resetting keep prices positive and counts in [1, 10]. |
| HeaderSettings.SettingsMenu.constructor | frontend/src/components/HeaderSettings.jsx:26-27 | The menu starts from a well-formed catalogue with an empty new-fuel-type box, and its invariant holds. |
| HeaderSettings.SettingsMenu.UpdateNozzleCount | frontend/src/components/HeaderSettings.jsx:30-38 | The catalogue becomes the stepped catalogue. The box is unchanged. The catalogue stays well formed, and stays sane if it was. |
| HeaderSettings.SettingsMenu.SetNewFuelType | frontend/src/components/HeaderSettings.jsx:135 | The box takes the text. The catalogue is unchanged. |
| HeaderSettings.SettingsMenu.AddFuelType | frontend/src/components/HeaderSettings.jsx:40-75 | A blank name, or one already a key, is refused and nothing changes. Otherwise the untrimmed name goes last with price 100.00 and 2 nozzles, and the box is cleared. The catalogue stays well formed, and stays sane if it was. |
| HeaderSettings.SettingsMenu.RemoveFuelType | frontend/src/components/HeaderSettings.jsx:77-86 | Exactly that key is dropped, from the map and from its place in the order. The box is unchanged. The catalogue stays well formed, and stays sane if it was. |
| HeaderSettings.SettingsMenu.ResetToDefaults | frontend/src/components/HeaderSettings.jsx:88-101 | The catalogue becomes the four defaults, which are well formed and sane. The box is unchanged. |
| HeaderSettings.PaddedNameIsNew | frontend/src/components/HeaderSettings.jsx:41-50 | " Petrol" is not blank and not a default key, so it would be added as a new type. |
| HeaderSettings.RemoveUndoesAdd | frontend/src/components/HeaderSettings.jsx:61-79 | Removing a fuel type just added restores the catalogue. |
| PetrolPumpCalculator.TotalCost | frontend/src/components/PetrolPumpCalculator.jsx:29-36 | The total is price × quantity when both are entered, and 0 while either is empty. It is non-negative for non-negative inputs. |
| PetrolPumpCalculator.ChangeAmount | frontend/src/components/PetrolPumpCalculator.jsx:38-45 | The change is never negative. It is 0 with nothing received, a zero total or underpayment. Otherwise received = total + change. |
| PetrolPumpCalculator.FindFuel | frontend/src/components/PetrolPumpCalculator.jsx:49 | Finds nothing iff no entry has the type. What it finds is in the list and has the type. |
| PetrolPumpCalculator.FindFuelFirst | frontend/src/components/PetrolPumpCalculator.jsx:49 | Of several entries of one type, the first is found. |
| PetrolPumpCalculator.Calculator.constructor | frontend/src/components/PetrolPumpCalculator.jsx:15-27 | The form starts empty, the figures at 0, and the history as the loaded sales. |
| PetrolPumpCalculator.Calculator.RecomputeDerived | frontend/src/components/PetrolPumpCalculator.jsx:29-45 | After the two effects the figures agree with the boxes. The boxes and the history are unchanged. |
| PetrolPumpCalculator.Calculator.SetPricePerLiter | frontend/src/components/PetrolPumpCalculator.jsx:162 | Sets the price and settles the figures. |
| PetrolPumpCalculator.Calculator.SetQuantity | frontend/src/components/PetrolPumpCalculator.jsx:179 | Sets the quantity and settles the figures. |
| PetrolPumpCalculator.Calculator.SetAmountReceived | frontend/src/components/PetrolPumpCalculator.jsx:217 | Sets the amount received and settles the figures. |
| PetrolPumpCalculator.Calculator.HandleFuelTypeChange | frontend/src/components/PetrolPumpCalculator.jsx:47-53 | Sets the type. A listed type brings its price; an unlisted type keeps the old price. |
| PetrolPumpCalculator.Calculator.HandleReset | frontend/src/components/PetrolPumpCalculator.jsx:96-103 | Every box is emptied and both figures are 0. The history is kept. |
| PetrolPumpCalculator.Calculator.HandleTransaction | frontend/src/components/PetrolPumpCalculator.jsx:55-94 | A missing type, quantity or amount received is refused. Underpayment is refused. Otherwise the sale with the on-screen figures goes first in the history and the form resets. A sale from settled figures is balanced. |
| PetrolPumpCalculator.SettledSaleBalanced | frontend/src/components/PetrolPumpCalculator.jsx:29-83 | A sale recorded from settled figures has non-negative change, and received = total + change unless the total is 0. |
| PetrolPumpCalculator.EmptyPriceSaleIsFree | frontend/src/components/PetrolPumpCalculator.jsx:30-79 | With an empty price box a sale goes through with total 0 and no change. |
| PetrolPumpCalculator.SamplePetrolSale | frontend/src/utils/mockData.js:40-54 | 20.5 l of listed Petrol with 2200 received gives total 2101.25 and change 98.75, as in the sample transaction. |
| UnifiedRecords.OnDateLength | frontend/src/components/UnifiedRecords.jsx:26-29 | A filtered list has one entry per record of the day. |
| UnifiedRecords.TotalRecords | frontend/src/components/UnifiedRecords.jsx:31 | The total is the sum of the four per-day counts. |
| UnifiedRecords.RecordGroup | frontend/src/components/UnifiedRecords.jsx:33-34 | No group for an empty list, otherwise one group with the count. |
| UnifiedRecords.Drawn | frontend/src/components/UnifiedRecords.jsx:187-217 | Every group drawn has a positive count equal to its kind's count, and the counts add up to the kinds' total. |
| UnifiedRecords.DrawnCovers | frontend/src/components/UnifiedRecords.jsx:187-217 | Every non-empty kind gets a group. |
| UnifiedRecords.DrawnInOrder | frontend/src/components/UnifiedRecords.jsx:187-217 | Groups keep the kinds' order. |
| UnifiedRecords.Render | frontend/src/components/UnifiedRecords.jsx:180-217 | The empty-day message is shown iff the day has no records. Otherwise the groups are exactly the non-empty kinds, in the order fuel sales, credit, income, expenses. Each carries its day count, and together they hold every record. |
| UnifiedRecords.OtherDayRecordIgnored | frontend/src/components/UnifiedRecords.jsx:26-31 | A sale of another day changes neither the count nor the card. |
| UnifiedRecords.FirstSaleOfDay | frontend/src/components/UnifiedRecords.jsx:180-193 | An empty day shows the message. One sale shows a single Fuel Sales (1) group. |
| Ledger.OnDate | frontend/src/components/ZAPTRStyleCalculator.jsx:245-248 | The filter keeps exactly the records of the day, each taken from the list. |
| Ledger.OnDateMultiset | frontend/src/components/UnifiedRecords.jsx:26-29 | The filter keeps each record of the day as often as it occurs, and nothing else. |
| Ledger.SumOfOnDate | frontend/src/components/ZAPTRStyleCalculator.jsx:251-264 | Summing the filtered list equals summing the day's records in the full list. |
| Ledger.SumOnDateConcat | frontend/src/components/ZAPTRStyleCalculator.jsx:251-264 | The day's sum distributes over concatenation. |
| Ledger.OnDateIdempotent | frontend/src/components/UnifiedRecords.jsx:26-29 | Filtering twice is filtering once. |

## Left out

- Rendering (JSX, icons, styles, dark mode), toasts, tabs and date navigation
  are left out. Only the state changes and figures behind them are modelled.
- The clock is a parameter: `Date.now()` ids, `toLocaleString()` timestamps,
  and the "today" label and default date. The main screen's sample data is
  dated relative to today; `DailyStats.SampleDay` fixes today as 2024-01-15.
- The shared `fuelSettings` and `salesData` live in the main screen and are
  passed down with their setters. Each screen that edits one holds its own
  copy: `PriceConfiguration.PriceScreen` and `HeaderSettings.SettingsMenu` own
  a `fuelSettings`, and `SalesTracker.SalesScreen` owns its `salesData`. The
  daily figures and the other screens see a change only when the caller passes
  the new value on. Propagation between screens is not modelled.
- Number inputs are exact reals. IEEE-754 rounding, NaN beyond "empty" and
  `parseFloat` of partial text are not modelled. A number box holding "0" is
  `Some(0)`, as `"0"` is truthy.
- `Math.random()` mock meter readings of generated nozzles are left out.
- Case mapping covers ASCII letters only. `toLowerCase`/`toUpperCase` of
  other characters are not modelled. The comparison with "power" and
  "premium" is still exact, because no non-ASCII character lower-cases to
  those letters under this model.
- Strings are sequences of Unicode code points, while `charAt(0)` works on
  UTF-16 code units. For a fuel-type name whose first character lies outside
  the Basic Multilingual Plane, the source's nozzle prefix is a lone
  surrogate, whereas `SalesTracker.NozzlePrefix` yields the whole character.
- JavaScript's key-order rule for integer-like keys (such keys come first)
  and inherited prototype keys such as "constructor" are not modelled.
  Catalogue keys keep plain insertion order.
- The mock transaction's extra fields (`calculationMode`, `paymentMethod`,
  `nozzleId`, readings) are not modelled; the calculator never sets them.
- HeaderSettings.SettingsMenu.UpdateNozzleCount: requires that the fuel type
  is in the catalogue. The menu only offers the buttons for catalogue
  entries, and the code would fail on any other name.
- UnifiedRecords.Render: models the groups and their counts, not the text of
  each record line.
- Credit, income and expense entry screens are not part of this model. Only
  the record shapes they produce and the views that read them are modelled.
