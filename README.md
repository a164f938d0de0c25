# Carbon-footprint calculators — a Dafny model

This project models the calculation core of a client-side carbon-footprint estimator.
The estimator has four form pages: Personal, Travel, Energy and Waste. Each page keeps
a small form record of option choices and numeric entries. A fixed weighted sum turns
that record into a footprint. A fifth page, the Dashboard, adds up four category
values and builds the labels and values for its bar and pie charts.

One Dafny module per page:

- `forms.dfy` (`Forms`): how a numeric field is read. `Num = Option<real>`, where
  `None` is an empty field, or a field that is not a number on pages that write
  `Number(x) || 0`. `NumberOrZero` reads both of those as 0.
- `personal.dfy`, `travel.dfy`, `energy.dfy`, `waste.dfy`: each has a `Form`
  datatype, a `Change` datatype for one change event, a pure `Update` that says
  which field changes, the pure `Footprint` calculator with its coefficient tables,
  and a `Page` class.
- `dashboard.dfy` (`Dashboard`): the total, the chart series and the colour index.

Option fields are kept as the option text (`string`), so the "any other value" arms
of the source's conditional chains are modelled as written. A change event is a
tagged value naming its field. `Get(form, field)` reads a field back, and each
`Update` promises that the named field holds the new value and every other field
keeps its old value. `UpdateIsExact` shows that these two promises fix the record.

Pages with a React effect (Personal, Travel, Energy) are classes with three steps.
`HandleChange` stores the new record and leaves the shown footprint stale.
`Recompute` is the effect. `Input` is one event followed by its effect. The
constructor is the mount: the state starts at 0 and the effect runs once. The Waste
page has no effect. Its constructor leaves the footprint at 0, and its
`HandleChange` recomputes from the new record straight away.

The worked household example (4 people, a 2000 square-foot house, vegan, minimal
shopping) works out to 6 + 2 + 2 + 1 + 1 = 12 under the code's formula.

## Model

| member | source | states |
|---|---|---|
| Forms.NumberOrZero | src/pages/Travel.tsx:28-33 | an empty or non-numeric field reads as 0; a number reads as itself; the same reading serves the Energy and Waste pages, and the Personal page for empty or numeric entries |
| Personal.Update | src/pages/Personal.tsx:36-41 | the named field takes the event's value; every other field keeps its old value |
| Personal.UpdateIsExact | src/pages/Personal.tsx:36-41 | any record with the new value in the named field and old values elsewhere equals the stored record |
| Personal.HomeImpact | src/pages/Personal.tsx:21-22 | house 2, apartment 1, any other value 1.5 |
| Personal.DietImpact | src/pages/Personal.tsx:24-25 | omnivore 2, vegetarian 1.5, any other value 1 |
| Personal.ShoppingImpact | src/pages/Personal.tsx:26-27 | frequent 2, moderate 1.5, any other value 1 |
| Personal.Footprint | src/pages/Personal.tsx:19-29 | the footprint minus the size part (1.5 per person plus homeSize/1000) lies in [3, 6] |
| Personal.ZeroSizesRange | src/pages/Personal.tsx:20-29 | with both numeric fields 0 or empty the footprint is in [3, 6], and both ends are reached |
| Personal.DefaultFootprint | src/pages/Personal.tsx:7-29 | the default form (apartment, omnivore, moderate, empty sizes) computes 4.5 |
| Personal.HouseholdExample | src/pages/Personal.tsx:20-29 | 4 people, house, 2000 sq ft, vegan, minimal computes 12 |
| Personal.MonotoneInSizes | src/pages/Personal.tsx:20-29 | more people or more floor space, choices unchanged, never lowers the footprint |
| Personal.Suggestion | src/pages/Personal.tsx:51-53 | the cut-down advice exactly when the footprint is above 10, the praise exactly when it is not |
| Personal.Page.constructor | src/pages/Personal.tsx:7-34 | after mount the form is the default and the shown footprint is 4.5, in sync with the form |
| Personal.Page.HandleChange | src/pages/Personal.tsx:36-41 | the stored record is Update of the old one; the shown footprint is unchanged until the effect |
| Personal.Page.Recompute | src/pages/Personal.tsx:18-34 | the shown footprint becomes the footprint of the current form; the form is unchanged |
| Personal.Page.Input | src/pages/Personal.tsx:18-41 | after an event and its effect the record is Update of the old one and the shown footprint is in sync |
| Personal.Page.Suggestions | src/pages/Personal.tsx:51-53 | the page shows the cut-down advice exactly when its footprint is above 10 |
| Personal.HouseholdSession | src/pages/Personal.tsx:7-53 | entering the household example field by field ends showing 12 and the cut-down advice |
| Travel.SetLeg | src/pages/Travel.tsx:45-51 | the addressed flight count takes the new value; the other two counts are kept |
| Travel.Update | src/pages/Travel.tsx:41-58 | dotted or not, the addressed field takes the event's value and every other field, nested ones included, keeps its old value |
| Travel.UpdateIsExact | src/pages/Travel.tsx:41-58 | the two promises of Update fix the stored record |
| Travel.UpdateKeepsOtherLevel | src/pages/Travel.tsx:43-56 | a dotted change keeps every top-level field; an undotted one keeps `flightsPerYear` intact |
| Travel.CarCoefficient | src/pages/Travel.tsx:22-26 | gasoline 2, diesel 2.2, hybrid 1.2, electric 0.5; 0 exactly for every other value, `none` included; always in [0, 2.2] |
| Travel.FlightImpact | src/pages/Travel.tsx:30-33 | 0.5 per short, 1.5 per medium, 3 per long flight: not negative for non-negative counts, 0 with every count empty, at most 3 per flight |
| Travel.Footprint | src/pages/Travel.tsx:21-35 | not negative when the entries are not; with a car type without coefficient it is public transport times 0.3 plus the flight part |
| Travel.Monotone | src/pages/Travel.tsx:22-35 | raising any numeric entry with the car unchanged never lowers the footprint |
| Travel.EmptyIsZero | src/pages/Travel.tsx:28-33 | emptying any numeric field gives the same footprint as writing 0 into it |
| Travel.NoCarIgnoresMileage | src/pages/Travel.tsx:26-28 | with car type `none` the mileage has no effect |
| Travel.DefaultFootprint | src/pages/Travel.tsx:9-35 | the default form computes 0 |
| Travel.ElectricExample | src/pages/Travel.tsx:26-35 | electric, 10000 miles, nothing else entered, computes 1000 |
| Travel.Page.constructor | src/pages/Travel.tsx:7-39 | after mount the form is the default and the shown footprint is 0, in sync with the form |
| Travel.Page.HandleChange | src/pages/Travel.tsx:41-58 | the stored record is Update of the old one; the shown footprint is unchanged until the effect |
| Travel.Page.Recompute | src/pages/Travel.tsx:20-39 | the shown footprint becomes the footprint of the current form; the form is unchanged |
| Travel.Page.Input | src/pages/Travel.tsx:20-58 | after an event and its effect the record is Update of the old one and the shown footprint is in sync |
| Travel.ElectricSession | src/pages/Travel.tsx:9-58 | choosing electric and typing 10000 miles on a fresh page ends showing 1000 |
| Energy.Update | src/pages/Energy.tsx:34-39 | the named field takes the event's value; every other field keeps its old value |
| Energy.UpdateIsExact | src/pages/Energy.tsx:34-39 | the two promises of Update fix the stored record |
| Energy.RenewableImpact | src/pages/Energy.tsx:21-22 | fully -0.5, partially -0.2; 0 exactly for every other value; always in [-0.5, 0] |
| Energy.EfficiencyImpact | src/pages/Energy.tsx:23-26 | excellent -0.3, good -0.2, poor 0.3; 0 exactly for every other value, average included; always in [-0.3, 0.3] |
| Energy.Footprint | src/pages/Energy.tsx:18-28 | within [-0.8, +0.3] of the usage part (0.4 per kWh plus 2.3 per m³); at least -0.8 when both usages are not negative |
| Energy.NegativeFootprint | src/pages/Energy.tsx:19-28 | zero usage with fully renewable and excellent efficiency gives -0.8, a negative result: nothing clamps it |
| Energy.SourceIgnored | src/pages/Energy.tsx:10-28 | the energy source never affects the footprint |
| Energy.EmptyIsZero | src/pages/Energy.tsx:19-20 | an empty usage field gives the same footprint as 0 |
| Energy.Monotone | src/pages/Energy.tsx:19-28 | more electricity or gas, choices unchanged, never lowers the footprint |
| Energy.DefaultFootprint | src/pages/Energy.tsx:9-28 | the default form computes 0 |
| Energy.Page.constructor | src/pages/Energy.tsx:7-32 | after mount the form is the default and the shown footprint is 0, in sync with the form |
| Energy.Page.HandleChange | src/pages/Energy.tsx:34-39 | the stored record is Update of the old one; the shown footprint is unchanged until the effect |
| Energy.Page.Recompute | src/pages/Energy.tsx:17-32 | the shown footprint becomes the footprint of the current form; the form is unchanged |
| Energy.Page.Input | src/pages/Energy.tsx:17-39 | after an event and its effect the record is Update of the old one and the shown footprint is in sync |
| Energy.GreenestSession | src/pages/Energy.tsx:9-39 | choosing fully renewable and excellent efficiency on a fresh page ends showing -0.8 |
| Waste.Update | src/pages/Waste.tsx:18 | the named field takes the event's value; every other field keeps its old value |
| Waste.UpdateIsExact | src/pages/Waste.tsx:18 | the two promises of Update fix the new record |
| Waste.RecyclingImpact | src/pages/Waste.tsx:24 | always -5, sometimes -2; 0 exactly for every other value; always in [-5, 0] |
| Waste.CompostImpact | src/pages/Waste.tsx:25 | yes -4, sometimes -2; 0 exactly for every other value; always in [-4, 0] |
| Waste.PlasticImpact | src/pages/Waste.tsx:28 | high 10, moderate 5, any other value 2; always in [2, 10] |
| Waste.TotalImpact | src/pages/Waste.tsx:27-31 | the raw total before the clamp: the choices add between -7 and 10 to 2 per gallon plus 3 per pound |
| Waste.Footprint | src/pages/Waste.tsx:23-32 | never negative whatever the inputs; at least the raw total; equal to the raw total or to 0 |
| Waste.ClampInactive | src/pages/Waste.tsx:27-32 | with non-negative amounts and credits no larger than the plastic impact the footprint is the raw total |
| Waste.ClampActive | src/pages/Waste.tsx:24-32 | always recycling, composting, minimal plastic, nothing entered: the raw total is -7 and the footprint 0 |
| Waste.DefaultFootprint | src/pages/Waste.tsx:9-32 | the default form would compute 3 |
| Waste.EmptyIsZero | src/pages/Waste.tsx:27-29 | an empty amount gives the same footprint as 0 |
| Waste.Monotone | src/pages/Waste.tsx:27-32 | more waste, choices unchanged, never lowers the footprint |
| Waste.ProgressWidth | src/pages/Waste.tsx:149 | never above 100; equal to five times the footprint exactly when the footprint is at most 20; full from 20 on; not negative for a non-negative footprint |
| Waste.Page.constructor | src/pages/Waste.tsx:7-15 | before any change the page shows 0, which differs from what the default form computes |
| Waste.Page.CalculateFootprint | src/pages/Waste.tsx:23-33 | the shown footprint becomes the clamped footprint of the record passed in |
| Waste.Page.HandleChange | src/pages/Waste.tsx:17-21 | the stored record is Update of the old one and the shown footprint is computed from that new record; it stays non-negative |
| Waste.Page.BarWidth | src/pages/Waste.tsx:147-149 | the bar width of the page is within [0, 100] |
| Waste.FirstChangeSession | src/pages/Waste.tsx:7-33 | a fresh page shows 0; after switching plastic to high it shows 8, with a bar width of 40 |
| Dashboard.Entries | src/pages/Donate.tsx:9-14 | four entries in declaration order: personal, travel, energy, waste with their values |
| Dashboard.Values | src/pages/Donate.tsx:16 | the values of the entries, one per entry, in the same order |
| Dashboard.FoldSum | src/pages/Donate.tsx:16 | the reduce returns its start value on no values and never drops below it when every value is non-negative |
| Dashboard.FoldSumIsSum | src/pages/Donate.tsx:16 | the left-to-right reduce from any start value equals that value plus the sum |
| Dashboard.TotalFootprint | src/pages/Donate.tsx:16 | the total is the sum of the four category values |
| Dashboard.SampleTotal | src/pages/Donate.tsx:9-16 | with the sample data the total is 11.6 |
| Dashboard.UpperCase | src/pages/Donate.tsx:20 | a lower-case letter becomes its upper-case letter; any other character is kept |
| Dashboard.Capitalize | src/pages/Donate.tsx:20 | the label has the key's length, its first character upper-cased and the same tail |
| Dashboard.CapitalizeIdempotent | src/pages/Donate.tsx:20 | capitalising a label again changes nothing |
| Dashboard.BarChartData | src/pages/Donate.tsx:19-22 | one bar per entry, in order, with the capitalised key and the entry's value |
| Dashboard.PieChartData | src/pages/Donate.tsx:24-27 | one slice per entry, in order, with the capitalised key and the entry's value |
| Dashboard.ChartsAgree | src/pages/Donate.tsx:19-27 | bar i and slice i have the same label and value |
| Dashboard.BarsAddUpToTotal | src/pages/Donate.tsx:16-22 | the bar values add up to the total |
| Dashboard.SampleLabels | src/pages/Donate.tsx:9-22 | the sample chart labels are Personal, Travel, Energy, Waste |
| Dashboard.CellColor | src/pages/Donate.tsx:118 | the colour index always lands in the palette, in palette order for the first four cells |
| Dashboard.CellColorRepeats | src/pages/Donate.tsx:118 | cells four apart share a colour |
| Dashboard.DistinctSliceColors | src/pages/Donate.tsx:117-119 | the four slices of the dashboard's pie get four different colours |

## Left out

- Rounding with `toFixed(2)` and `toFixed(1)`, and IEEE-754 float error: the model computes exact reals. The displayed string, the `> 10` comparison on it in Personal and the progress-bar width read the rounded string in the source.
- Parsing with JavaScript `Number(...)`: numeric fields arrive already parsed as `Option<real>`.
- Personal has no `|| 0` fallback, so a non-numeric entry would give NaN there. The model covers empty or numeric entries only.
- Dashboard.UpperCase: maps only the ASCII letters a to z. JavaScript's `toUpperCase` also maps other Unicode letters, some to two characters, which would change the label length.
- Waste.Page.CalculateFootprint: always takes its record explicitly; the source's default argument `data = formData` is not modelled, since its one caller passes the new record.
- React scheduling: `useState` setters are asynchronous and the effect runs after rendering. The model writes each step as a method call: update the record, then recompute.
- Navigation (`navigate`, the `setTimeout` in the Waste submit handler, routing in src/App.tsx), dark-mode toggles, JSX markup, styling and chart rendering.
- The progress-bar widths on the Personal, Travel and Energy pages: they are unbounded presentation expressions.
- src/pages/Home.tsx (static text), src/pages/Recommendations.tsx (fixed tip lists and a random pick) and src/pages/Profile.tsx (fixed user data) are not part of this model.
- The Dashboard values are fixed sample data in the source and are not linked to the four calculators. The model keeps them separate too.
