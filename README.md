# Storefront catalog and filter panel, modelled in Dafny

This project models the logic of a small React storefront for game accounts.
The storefront fetches a filtered catalog of listings from a REST backend,
shows each listing as a card, creates listings from a modal form and places
orders. Two components hold that logic:

- **The root component** (`src/App.jsx`). It holds the catalog's fetch state:
  `items`, `loading` and `error`. It builds the query string from the filter
  record, and it fetches again whenever `JSON.stringify(filters)` changes. It
  also owns the buy flow and the add-account form, and it renders the card
  fallbacks.
- **The filter panel** (`src/components/Filters.jsx`). It has four text
  fields and one debounce timer. Each field change clears the pending timer
  and arms a new one. The new timer hands `{q, rank, min_price, max_price}`
  to the parent 400 time units later.

Modules, one per concern:

- `JsValue` (`jsvalue.dfy`): undefined properties and truthiness.
- `JsString` (`jsstring.dfy`): `trim`, `split` on one character, and `join` as its inverse.
- `JsNumber` (`jsnumber.dfy`): the global `parseInt` with no radix, as ECMA-262 defines it, and the decimal text React renders for an integer.
- `Query` (`query.dfy`): the filter record; `URLSearchParams.set`/`get` as the URLSearchParams class of the WHATWG URL Standard defines them; the query builder; the JSON members of the filter record.
- `Listing` (`listing.dfy`): the account record, the form, the payload built from the form, and the card fallbacks.
- `App` (`app.dfy`): the `Catalog` class (the root component's state, with fetch, effect and buy) and the `AddAccountForm` class (the save flow).
- `Filters` (`filters.dfy`): the panel as pure step functions over a `Panel` value, the lemmas about them, and the `FilterPanel` class whose methods follow those step functions.

The network is abstracted. The backend's answer to each request is a
parameter of the step that makes the request (`Response`: `Ok(body)`,
`NotOk`, or `Thrown(message)`). Each request is appended to `Catalog.sent`.
A fetch runs from start to finish inside one step. Prompt answers are
parameters of `Buy`, and `Buy` returns the alert text. Time is an integer
clock, and every step takes the current time.

Behaviour of the code worth knowing:

- The panel's effect also runs on mount, so an all-empty record is emitted 400 units after mount even with no edit (`Filters.MountEmission`). That record differs from the initial `{}` as JSON, so it causes a second fetch with the same empty query (`App.FirstEmissionRefetches`, `App.MountAndFirstEmission`).
- A failed fetch sets `error` to the message of the error it raised: the fixed "Gagal memuat data" for a non-2xx answer, and the thrown error's own message otherwise.
- The add-account form component is declared inside the root component's body. Every re-render of the root therefore mounts the form afresh. After a successful save, the catalog fetch re-renders the root, so the typed values, the success message and the saving flag all start over (`App.AddAccountForm.Submit`, `App.AddAccountForm.Remount`).
- A field edit that leaves the value unchanged does not restart the 400-unit wait, because React skips that render and the effect's dependencies stay the same.

## Model

| member | source | states |
|---|---|---|
| `JsString.TrimStart` | src/App.jsx:63 | the result is the longest suffix that does not start with white space; everything cut off is white space |
| `JsString.TrimEnd` | src/App.jsx:63 | the result is the longest prefix that does not end with white space; everything cut off is white space |
| `JsString.Trim` | src/App.jsx:63 | the trimmed piece neither starts nor ends with white space and is one contiguous piece of the input with only white space around it |
| `JsString.TrimKeeps` | src/App.jsx:63 | a string without white space at either end is unchanged by `trim` |
| `JsString.TrimIdempotent` | src/App.jsx:63 | trimming twice equals trimming once |
| `JsString.Split` | src/App.jsx:63 | `split(',')` always gives at least one piece (`"".split(',')` is `[""]`) |
| `JsString.SplitCount` | src/App.jsx:63 | the number of pieces is the number of commas plus one, so empty pieces are kept |
| `JsString.SplitPiecesFree` | src/App.jsx:63 | no piece contains the separator |
| `JsString.JoinSplit` | src/App.jsx:63 | joining the pieces with the separator gives back the field text |
| `JsString.SplitJoin` | src/App.jsx:63 | splitting a join of separator-free pieces gives back the pieces |
| `JsNumber.ParseInt` | src/App.jsx:61-62 | text that is blank after leading white space gives NaN, and a negative result needs a `-` as the first non-space character |
| `JsNumber.ParseMagnitude` | src/App.jsx:61-62 | the unsigned part of `parseInt` is NaN or non-negative |
| `JsNumber.ParseIntSigned` | src/App.jsx:61-62 | `parseInt` of `-` followed by text is the negated magnitude of the text |
| `JsNumber.ParseIntUnsigned` | src/App.jsx:61-62 | `parseInt` of text that starts with a digit is its magnitude |
| `JsNumber.ParseIntAfterDigits` | src/App.jsx:61-62 | `parseInt` reads back the integer whose decimal text starts the input, whatever follows unless it starts with a digit, or with x or X after a lone 0 ("12.5" and "12x" give 12) |
| `JsNumber.ParseIntToString` | src/App.jsx:61-62 | `parseInt(String(n)) == n` for every integer |
| `JsNumber.NatDigits` | src/App.jsx:161 | a rendered count is a non-empty string of decimal digits with no leading zero |
| `JsNumber.IntToString` | src/App.jsx:161 | a rendered integer is never empty, starts with `-` exactly when it is negative, and ends with a decimal digit |
| `JsNumber.NatDigitsValue` | src/App.jsx:161 | the rendered digits read back in radix 10 as the number |
| `Query.ReplaceFirst` | src/App.jsx:17-20 | replacing the first pair of a present name makes that name read as the new value |
| `Query.SetPair` | src/App.jsx:17-20 | after `set(name, value)` the list always reads `value` under `name` |
| `Query.GetConcat` | src/App.jsx:16-20 | looking a name up in two concatenated lists finds the first list's value, else the second's |
| `Query.GetRemoveAll` | src/App.jsx:17-20 | removing a name hides it and leaves every other name's lookup unchanged |
| `Query.GetReplaceFirst` | src/App.jsx:17-20 | replacing a name's first pair changes that name's value only |
| `Query.GetAfterSet` | src/App.jsx:17-20 | after `set(name, value)`, `get(name)` is `value` and every other name reads as before |
| `Query.SearchParams.constructor` | src/App.jsx:16 | a new `URLSearchParams` holds no pairs |
| `Query.SearchParams.Set` | src/App.jsx:17-20 | `set` updates the pair list as the WHATWG URL Standard says, sets the name's value and leaves other names unchanged |
| `Query.BuildQuery` | src/App.jsx:16-20 | the successive `set` calls produce exactly the query of the filter record |
| `Query.QueryOf` | src/App.jsx:17-20 | the query has at most four pairs, each a filter key with that filter's own non-empty value |
| `Query.KeyIndex` | src/App.jsx:17-20 | the position of a key in the visiting order q, rank, min_price, max_price; below four exactly for those keys |
| `Query.QueryInKeyOrder` | src/App.jsx:17-20 | the query's keys strictly increase in the order q, rank, min_price, max_price, so none appears twice |
| `Query.QueryGet` | src/App.jsx:17-20 | a key is present exactly when its filter value is truthy, and then it carries that value unchanged; no other key appears |
| `Query.QueryKeepsZero` | src/App.jsx:17-20 | `""` omits its key, and `"0"` is kept |
| `Query.QueryExample` | src/App.jsx:17-20 | `{q:"", rank:"Mythic", min_price:"", max_price:"100000"}` gives exactly `rank=Mythic&max_price=100000` |
| `Query.JsonMembers` | src/App.jsx:34 | at most four members, each a filter key with that filter's defined value (empty strings included) |
| `Query.JsonRoundTrip` | src/App.jsx:34 | parsing the JSON members of a filter record gives the record back |
| `Query.JsonInjective` | src/App.jsx:32-34 | two filter records have the same JSON exactly when they are equal |
| `Listing.ParseImages` | src/App.jsx:63 | a blank field gives `[]`; otherwise there is one entry per comma plus one, each without commas and without white space at its ends |
| `Listing.ParseImagesPieces` | src/App.jsx:63 | each image entry is the trim of the matching comma-separated piece |
| `Listing.ParseImagesOfJoin` | src/App.jsx:63 | comma-joined URLs without commas or surrounding space are read back as the same list, empty entries included |
| `Listing.ParseImagesSpaced` | src/App.jsx:63 | `"a.png, b.png"`-shaped input gives the two URLs without the space |
| `Listing.ParseCount` | src/App.jsx:61-62 | a count is undefined exactly when its field is blank |
| `Listing.ToPayload` | src/App.jsx:58-64 | title, description, rank, login method and email access are copied unchanged; the text handed to `parseFloat` is the price as typed, or "0" when the price is blank; counts and images are converted from their fields |
| `Listing.PayloadCount` | src/App.jsx:61-62 | a count typed as the decimal text of `n` is posted as `n` |
| `Listing.PayloadExample` | src/App.jsx:58-64 | title "X" and price "50000" with blank counts give undefined counts, empty images and price text "50000" |
| `Listing.CardThumbnail` | src/App.jsx:152-156 | a placeholder exactly when images is missing, empty, or has an empty first URL; otherwise the photo is exactly the first URL, and it is non-empty |
| `Listing.DescriptionText` | src/App.jsx:159 | the description when it is truthy, else "—"; never empty |
| `Listing.CountText` | src/App.jsx:161 | the shown count is never empty, and it is "-" exactly when the count is absent |
| `Listing.CountTextFaithful` | src/App.jsx:161 | "-" shows exactly when the count is absent, and a shown count reads back as the count |
| `Listing.CountTextZero` | src/App.jsx:161 | a zero count shows "0", not "-" |
| `App.Started` | src/App.jsx:13-14 | loading is on and the error is cleared; the listings are untouched |
| `App.Finished` | src/App.jsx:22-28 | loading is off; success shows the response's listings and keeps the error; failure keeps the listings and sets the error message, which is never empty for a non-2xx answer |
| `App.FetchOutcome` | src/App.jsx:12-30 | after a fetch, success shows the server's listings in server order with no error; failure keeps the old listings and shows the message; loading is over either way |
| `App.FirstEmissionRefetches` | src/App.jsx:32-34 | `{}` and the all-empty record give the same empty query but different JSON |
| `App.Catalog.constructor` | src/App.jsx:6-9 | first render: no listings, loading, no error, filters `{}`, and the effect has not run |
| `App.Catalog.StartFetch` | src/App.jsx:13-21 | loading becomes true and the error is cleared, then one GET with the filters' query is sent; the listings are untouched |
| `App.Catalog.FinishFetch` | src/App.jsx:22-29 | success replaces the listings; failure sets the error and keeps the listings; loading ends false |
| `App.Catalog.FetchItems` | src/App.jsx:12-30 | the start updates (loading on, error cleared), then one GET with the query of `params`, then the finish updates |
| `App.Catalog.RunEffect` | src/App.jsx:32-34 | a fetch runs exactly when the filters' JSON differs from the effect's last run |
| `App.Catalog.SetFilters` | src/App.jsx:32-34 | once mounted, new filters cause a fetch exactly when they differ from the current ones; otherwise no request and no state change |
| `App.Catalog.Buy` | src/App.jsx:117-129 | an empty or cancelled name or number sends nothing and changes nothing; otherwise `{account_id, buyer_name, whatsapp}` is posted; success alerts the order id and re-fetches with the current filters; failure alerts "Gagal: " and the message |
| `App.AddAccountForm.constructor` | src/App.jsx:47-51 | the form opens with the defaults (rank "Epic", login "Moonton", no email access, the rest empty), not saving, no message |
| `App.AddAccountForm.Change` | src/App.jsx:90-104 | an input replaces the form values and nothing else |
| `App.AddAccountForm.Remount` | src/App.jsx:46-51 | a remounted form is back at the defaults, not saving, with no message |
| `App.AddAccountForm.Submit` | src/App.jsx:53-78 | the payload of the current form is posted; success re-fetches with the current filters, and the root's re-render remounts the form, so the form is at the defaults with no message; failure keeps the form and sets the message to "❌ " and the error; saving ends false |
| `App.MountAndFirstEmission` | src/App.jsx:32-34 | mount plus the panel's first emission send two identical empty-query GETs |
| `Filters.WithValue` | src/components/Filters.jsx:18-49 | a setter changes its own field only and leaves the timer alone |
| `Filters.Advance` | src/components/Filters.jsx:10-13 | something is emitted exactly when a timer is due by now; it is that timer's record and no timer is left; otherwise nothing changes; the fields never change |
| `Filters.EditStep` | src/components/Filters.jsx:9-20 | an edit emits only what the clock already made due; the edited field takes the value and the others keep theirs; a changed value arms a new timer due 400 later with the new record; an unchanged value leaves the timer as it was |
| `Filters.StepsKeepCurrent` | src/components/Filters.jsx:9-14 | the pending timer always carries the current values, and what fires is the record of the fields at firing time |
| `Filters.MountEmission` | src/components/Filters.jsx:9-14 | after mount, nothing is emitted before 400 units; then one all-empty record is emitted and no timer is left |
| `Filters.NoTimerNoEmission` | src/components/Filters.jsx:10-13 | with no pending timer the clock emits nothing |
| `Filters.Burst` | src/components/Filters.jsx:9-14 | changes less than 400 apart emit nothing and leave one timer, due 400 after the last change, carrying the values after it |
| `Filters.BurstSettles` | src/components/Filters.jsx:9-14 | after a burst, exactly one record is emitted, at the end of the wait, and nothing follows |
| `Filters.ApplyValuesLast` | src/components/Filters.jsx:18-49 | a field no change touches keeps its old value, and the field of the final change ends at that change's value |
| `Filters.LastChangeTo` | src/components/Filters.jsx:18-49 | each field ends at the value of the last change to it, whatever later changes do to other fields |
| `Filters.FilterPanel.constructor` | src/components/Filters.jsx:4-14 | four empty fields and one timer armed by the mount effect |
| `Filters.FilterPanel.Tick` | src/components/Filters.jsx:10-13 | a due timer fires once and hands over the current record |
| `Filters.FilterPanel.Edit` | src/components/Filters.jsx:9-14 | any due timer fires first; a change of value sets the field, clears the old timer and arms one new timer |

## Left out

- Network I/O (`fetch`, `res.json()`), the backend base URL from the build configuration, and the `/test` link. Each answer is a `Response` parameter.
- Percent-encoding. URLSearchParams serializes with the application/x-www-form-urlencoded serializer (section 5.2 of the WHATWG URL Standard). A query here is the ordered list of name/value pairs.
- The escaping in the text of `JSON.stringify`. The filter record's JSON is modelled as its ordered members, and the payload is a datatype, not JSON text. So the dropping of undefined counts and the writing of NaN as `null` are not modelled.
- `parseFloat` of the price, which works on floating point. The payload keeps `form.price || 0` as the text handed to it. `toLocaleString('id-ID')` price formatting is also left out, because it depends on the locale.
- Double-precision rounding. `parseInt` results are exact integers, and exponent notation for integers of 10^21 or more is not modelled.
- Overlapping fetches and the stale-response race. Each fetch is one atomic start-and-finish step.
- JSX and Tailwind markup, the `showForm` modal toggle, and the `prompt`/`alert` dialogs themselves. Prompt answers are parameters and the alert text is a result.
- App.AddAccountForm.Submit: the `saving` flag is true only inside the atomic step, so the disabled Save button during a save is not observable in the model. The remount is applied only after the save's own re-fetch: a re-fetch caused by a filter emission or a purchase while the form is open also remounts the form and discards what was typed, but the model does not tie the form object to those `Catalog` steps.
- Real browser timers. The clock is an integer given with each step, and a timer due by a step fires before that step.
- Filters.Burst: stated only for bursts in which every edit changes its field. An edit that repeats a field's current value does not restart the wait; `Filters.EditStep` models that case.
