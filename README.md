# Campaign dashboard and photo browser, modelled in Dafny

The application is a React front end. It has two pages and a mock JSON API.

- The **campaign dashboard** loads a list of advertising campaigns. It classifies each one by its creation date against the current local calendar day: past, live (today) or upcoming. It shows the three groups on three tabs (Upcoming, Live, Past), each tab a table.
  - A row of the table opens a pricing modal, which pairs the campaign's price entries with three fixed labels.
  - A row also opens a date picker that reschedules the campaign. The container overwrites the campaign's `createdOn`, posts the whole list and stores a copy of it.
- The **photo browser** lists photos from a Flickr-style API.
  - Scrolling near the bottom bumps a page counter, and each page change re-fetches the list.
  - Typing three or more characters hands the text to a debounced search.
  - Every fetch result replaces the list.
  - Clicking a thumbnail toggles a modal showing that photo at another size.
- The **mock server** turns records served under an `/errors` route that carry a truthy `statusCode` into error replies with that status.

Each core source file is one Dafny module. `JsValues` holds the parts of JavaScript the code relies on:
- values and truthiness;
- `Number(...)` on strings;
- property lookup, `delete` and `Object.values` on plain objects;
- `indexOf`;
- decimal numerals.

| module | file | form |
|---|---|---|
| `JsValues` | `js_values.dfy` | datatypes, functions, lemmas |
| `DateStatus` | `date_status.dfy` | `checkDateStatus`, with the clock and time zone as a parameter |
| `Tab` | `tab.dfy` | functions of the props |
| `Tabs` | `tabs.dfy` | class `Tabs` with the `activeTab` field; rendering as functions |
| `Tables` | `table.dfy` | the table components as functions |
| `Campaigns` | `campaigns.dfy` | pricing rows and timestamps as functions; class `CampaignRow` with its two modal flags |
| `DashboardView` | `dashboard_view.dfy` | the three-way split and the tabs |
| `DashboardContainer` | `dashboard_container.dfy` | class `Dashboard` whose state is an `array` updated in place |
| `PhotosView` | `photos_view.dfy` | list extraction, branch choice and image URLs |
| `PhotosContainer` | `photos_container.dfy` | class `Photos` with the six state fields; each handler proved against `Step` on a state value, with lemmas over event sequences |
| `MockServer` | `mock_server.dfy` | the reply as a function; class `Response` whose `Render` mutates the data and the status |

Modelling choices:
- Dates are integer milliseconds.
- Reading the clock becomes an explicit `Clock` argument: the instant, plus the zone's offset from UTC.
- Translations (`t`) are an arbitrary function on strings.
- Base URLs are string parameters.
- Fetches, the throttled scroll listener and the debounced search are outside events. The model states what each event does to the state.

In the photo feed, every fetch result replaces the list, whichever request it answers. Pages are not appended, and no rate limiting is in effect, because the debounce and throttle helpers the page imports are not defined.

For a `scheduleCampaign` call with an id that no campaign has, the model does not add a precondition. `findIndex` gives -1, `campaigns[-1].createdOn = …` throws, and the method returns `Thrown` without changing anything.

## Model

| member | source | states |
|---|---|---|
| JsValues.FalsyValues | mock/api/server.js:31 | `Truthy`: `undefined`, `null`, `false`, `0` and `""` are falsy and every other value is truthy |
| JsValues.WithDefault | src/common/Table/index.js:32-37 | a default prop replaces exactly an `undefined` value |
| JsValues.Lookup | src/common/Table/index.js:66 | `obj[name]` is the value of the first property with that name, or `undefined` when there is none |
| JsValues.GetProperty | mock/api/server.js:29 | reading a property throws exactly on `undefined` and `null`; on a plain object it is `Lookup` |
| JsValues.Values | src/common/Table/index.js:74 | `Object.values` has one entry per property, the i-th being the i-th property's value |
| JsValues.StringToNumber | src/common/utilities.js:5 | `Number(s)` reads `""` as 0 and a plain, `-`-signed or `+`-signed decimal numeral as its integer; in the model every other string is NaN |
| JsValues.ToNumber | src/common/utilities.js:5 | `Number(v)`: a number is itself, `null` is 0, `undefined`, plain objects and React elements are NaN, strings as `StringToNumber` |
| JsValues.NumberOfIntString | src/components/Campaigns/index.js:29 | a millisecond string written by `format('x')` reads back with `Number` as the same integer |
| JsValues.IntStringInjective | src/common/Table/index.js:239 | different indices give different numerals, so index-based keys differ |
| JsValues.IndexOf | mock/api/server.js:31 | `indexOf` is -1 exactly when the pattern occurs nowhere; otherwise it is the first occurrence |
| JsValues.Delete | mock/api/server.js:32 | `delete obj.name` leaves exactly the other properties, and none with that name |
| JsValues.DeleteOne | mock/api/server.js:32 | a single property survives iff it has another name |
| JsValues.DeleteConcat | mock/api/server.js:32 | deleting from two runs of properties keeps the survivors of each, in order, so the remaining properties keep their order |
| JsValues.LookupAfterDelete | mock/api/server.js:32-34 | after the delete every other property reads as before, and the deleted one reads `undefined` |
| DateStatus.TimeClip | src/common/utilities.js:5 | a `Date` outside ±8.64e15 ms is invalid (NaN); a date inside keeps its value |
| DateStatus.StartOfLocalDay | src/common/utilities.js:5 | `setHours(0,0,0,0)` is a valid date exactly when the instant is valid and its local midnight lies in the `Date` range; it is then the local midnight at or before the instant, on the same local day |
| DateStatus.Minus | src/common/utilities.js:5 | the difference is NaN when either side is, otherwise the exact difference |
| DateStatus.MidnightDifference | src/common/utilities.js:5 | the difference of the two midnights is a whole number of days: today's day number minus the date's |
| DateStatus.CheckDateStatus | src/common/utilities.js:2-30 | PAST iff the date's day is before today, UPCOMING iff after, LIVE iff the same day or the date is invalid; always one of the three |
| DateStatus.SameDaySameStatus | src/common/utilities.js:5 | two dates on the same local calendar day get the same status |
| DateStatus.SameLocalDay | src/common/utilities.js:5 | any instant between a date's local midnight and the next has that date's status |
| DateStatus.UnreadableDateIsLive | src/common/utilities.js:7-18 | a date `Number` cannot read makes both comparisons false, giving LIVE |
| DateStatus.OutOfRangeDateIsLive | src/common/utilities.js:5-18 | a number beyond the `Date` range is an invalid date and gives LIVE |
| Tab.Render | src/common/Tab/index.js:17-27 | the item class always; the active class iff `activeTab === label`; the text is the title; depends on the props only |
| Tab.OnClick | src/common/Tab/index.js:12-15 | a click reports a label that, made the active tab, makes this tab the active one |
| Tab.ClickActivates | src/common/Tab/index.js:12-15 | clicking reports the label, and a tab given its reported label as the active tab is drawn active |
| Tabs.TabList | src/common/Tabs/index.js:40-52 | one `Tab` per child, in child order, with that child's label and title and key `label-index` |
| Tabs.Content | src/common/Tabs/index.js:55-61 | the slot of a child holds its content iff its label is the active tab; otherwise it is null |
| Tabs.ShownIsActiveContent | src/common/Tabs/index.js:55-61 | what is drawn is exactly the contents of the children labelled with the active tab, in order |
| Tabs.OnlyActiveChildShown | src/common/Tabs/index.js:55-61 | with distinct labels, only the child whose label is active is drawn |
| Tabs.ShownHasActive | src/common/Tabs/index.js:55-61 | when some child has the active label, something is drawn |
| Tabs.Tabs.constructor | src/common/Tabs/index.js:10-23 | the initial active tab is the first child's label, which names a child |
| Tabs.Tabs.OnClickTabItem | src/common/Tabs/index.js:26-28 | the active tab becomes the clicked one, so a repeated click changes nothing |
| Tabs.Tabs.ClickTab | src/common/Tabs/index.js:26-49 | a click on a rendered tab makes it active and keeps the active tab a child's label |
| Tabs.Tabs.Render | src/common/Tabs/index.js:30-65 | while the active tab names a child, some content is drawn, and a tab is drawn active iff its content slot is filled |
| Tables.TableCell | src/common/Table/index.js:14-37 | shows the children when truthy, else `cellData`, else `''` |
| Tables.ColumnSlots | src/common/Table/index.js:61-73 | one slot per column in order: a cell with `rowData[key]` where the key is truthy, the falsy key itself elsewhere |
| Tables.ValueSlots | src/common/Table/index.js:74-76 | one cell per property value, in order, keyed `cell-i` |
| Tables.TableRow | src/common/Table/index.js:46-79 | children are cloned and the data ignored; otherwise a non-empty `columns` decides the cells; otherwise `Object.values(rowData)` does |
| Tables.ColumnCells | src/common/Table/index.js:61-73 | slot i is a cell iff column i's key is truthy, and it then shows `rowData[key]` (default `''`) with the column's other props |
| Tables.ValueCells | src/common/Table/index.js:74-76 | without columns, slot i shows the i-th property value |
| Tables.IndexKeysDistinct | src/common/Table/index.js:67 | keys built from one prefix and two different indices differ |
| Tables.TableHeaderCell | src/common/Table/index.js:109-127 | a string gives itself; an object gives its `label`, with its other fields as attributes; a null label gives nothing; `null` throws |
| Tables.HeaderAttributes | src/common/Table/index.js:115-119 | the `label` is never passed on as an attribute, and every other field's value is kept |
| Tables.HeaderCellsFrom | src/common/Table/index.js:159-166 | one header cell per entry, in order, keyed `header-cell-i` |
| Tables.TableHeader | src/common/Table/index.js:152-169 | children are cloned; otherwise there is one header cell per entry of `header` |
| Tables.BodyRows | src/common/Table/index.js:236-245 | one row element per entry, in order, keyed `row-i`, each with the same `rowProps` |
| Tables.Table | src/common/Table/index.js:203-250 | a header section iff `header` is given; one row per `rowsData` entry in order; custom components replace the defaults when supplied |
| Tables.RowKeysDistinct | src/common/Table/index.js:236-245 | the rows of a table have pairwise distinct keys |
| Campaigns.PricingRowsFrom | src/components/Campaigns/index.js:66-71 | row i is keyed `elem-i`, labelled `priceLabels[i]` and shows `elem[priceValueLabels[i]]` |
| Campaigns.PricingRows | src/components/Campaigns/index.js:64-71 | no rows unless `price` is present and non-empty; then one row per element with the positional label and value |
| Campaigns.ThreeTierPricing | src/components/Campaigns/index.js:50-71 | a three-element price shows the first's `monthly`, the second's `halfYearly` and the third's `annually` under the three labels |
| Campaigns.MomentTimestamp | src/components/Campaigns/index.js:28-29 | the picked instant reads back as itself rounded down to the second (moment keeps years 0–9999 exactly, see Left out); no valid pick gives "Invalid date" |
| Campaigns.ScheduledDateKeepsDay | src/components/Campaigns/index.js:27-32 | with a whole-second offset, the rescheduled campaign gets the status of the picked instant |
| Campaigns.WholeSecondsSameDay | src/components/Campaigns/index.js:28-29 | rounding down to the second keeps the local day and the local midnight |
| Campaigns.CampaignRow.constructor | src/components/Campaigns/index.js:25-26 | both modal flags start closed |
| Campaigns.CampaignRow.HandlePricingModalOpen | src/components/Campaigns/index.js:34-36 | opens the pricing modal; the date-picker flag is untouched |
| Campaigns.CampaignRow.HandlePricingModalClose | src/components/Campaigns/index.js:38-40 | closes the pricing modal; the date-picker flag is untouched |
| Campaigns.CampaignRow.HandleDatePickerOpen | src/components/Campaigns/index.js:42-44 | opens the date picker; the pricing flag is untouched |
| Campaigns.CampaignRow.HandleDatePickerClose | src/components/Campaigns/index.js:46-48 | closes the date picker; the pricing flag is untouched |
| Campaigns.CampaignRow.ScheduleCampaignHandler | src/components/Campaigns/index.js:27-32 | forwards the row's own `campaignId` and a string that reads back as the picked instant to the second, or NaN |
| Campaigns.OrEmpty | src/components/Campaigns/index.js:139 | a missing `campaigns` prop is the empty list; a present one is itself |
| Campaigns.Header | src/components/Campaigns/index.js:137 | four headings, the plain-text translations of date, campaign, view and actions, in that order |
| Campaigns.CampaignsTable | src/components/Campaigns/index.js:139-149 | the table's rows are the campaigns (none when absent), with the four-heading header, the `CampaignRow` component and `{ scheduleCampaign }` as row props |
| Campaigns.CampaignsRendering | src/components/Campaigns/index.js:137-149 | the table has the four-heading header and one `CampaignRow` per campaign (none when absent), in order, each with the same `scheduleCampaign` |
| Campaigns.HeaderCells | src/components/Campaigns/index.js:137 | the header cells are date, campaign, view and actions, in that order |
| DashboardView.WithStatus | src/components/Dashboard/index.js:12-14 | a filtered list holds exactly the input campaigns with that status |
| DashboardView.Split | src/components/Dashboard/index.js:11-14 | with one clock reading, each list holds exactly the campaigns of the input with that status |
| DashboardView.SplitOfMissing | src/components/Dashboard/index.js:11 | a missing `campaigns` prop gives three empty lists |
| DashboardView.SplitIsPartition | src/components/Dashboard/index.js:12-14 | the three lists together are the input as a multiset: every campaign lands in exactly one list, as often as it occurs |
| DashboardView.SplitLengths | src/components/Dashboard/index.js:12-14 | the three lengths add up to the number of campaigns |
| DashboardView.ExactlyOneList | src/components/Dashboard/index.js:12-14 | a campaign is in the list of its status and in neither other list |
| DashboardView.WithStatusKeepsOrder | src/components/Dashboard/index.js:12-14 | filtering distributes over concatenation, so each list keeps the input order |
| DashboardView.WithStatusAsWritten | src/components/Dashboard/index.js:12-14 | a filter pass whose every test reads the clock again keeps only input campaigns and is no longer than the input |
| DashboardView.SplitAsWritten | src/components/Dashboard/index.js:11-14 | the three passes as written hold only input campaigns |
| DashboardView.AsWrittenWithSteadyClock | src/components/Dashboard/index.js:12-14 | with one clock reading for every test, the filters as written equal the single-reading split |
| DashboardView.MidnightBreaksPartition | src/components/Dashboard/index.js:12-14 | across local midnight, the filters as written put a campaign in two lists and another in none |
| DashboardView.DashboardTabs | src/components/Dashboard/index.js:18-28 | three tabs, labelled Upcoming, Live and Past in that order, titled with the translations of their keys, over the split with one clock reading for the whole render (see Findings) |
| DashboardView.DashboardTabsShape | src/components/Dashboard/index.js:18-28 | three tabs, Upcoming, Live and Past in that order, with distinct labels, showing the three lists, all with the same `scheduleCampaign` |
| DashboardView.InitialTab | src/components/Dashboard/index.js:18-28 | on first render the Upcoming tab is active and only the upcoming campaigns are shown, split with one clock reading for the whole render (see Findings) |
| DashboardContainer.FindIndex | src/containers/Dashboard/index.js:14 | the first index whose `campaignId` is `===` the id, or -1 exactly when there is none |
| DashboardContainer.Rescheduled | src/containers/Dashboard/index.js:15 | the target gets the new `createdOn` with its other fields kept; every other campaign and the length are unchanged |
| DashboardContainer.RescheduledKeepsIndex | src/containers/Dashboard/index.js:14-15 | a reschedule changes no id, so every later lookup finds the same index |
| DashboardContainer.RescheduleTwice | src/containers/Dashboard/index.js:15 | rescheduling the same campaign twice keeps only the later date |
| DashboardContainer.RescheduledOthersKeepStatus | src/containers/Dashboard/index.js:15-16 | every other campaign keeps its status |
| DashboardContainer.Dashboard.constructor | src/containers/Dashboard/index.js:8 | the initial state is a fresh empty array |
| DashboardContainer.Dashboard.CompleteLoad | src/containers/Dashboard/index.js:32-37 | a successful load replaces the state with the data; a failed one leaves it unchanged |
| DashboardContainer.Dashboard.View | src/containers/Dashboard/index.js:43-47 | "No Data Available" iff the state is missing or empty; otherwise the dashboard over the state's contents |
| DashboardContainer.Dashboard.ScheduleCampaign | src/containers/Dashboard/index.js:10-26 | the first match is rescheduled inside the current array; the new state is a fresh copy with those contents, which is also the posted body; without a match or a list it throws and nothing changes |
| PhotosView.PhotoItems | src/components/Photos/index.js:10 | a missing `photoList.photos` or `.photo` gives the empty list; otherwise the list itself |
| PhotosView.ImageUrl | src/components/Photos/index.js:38 | the URL is the base, `/server`, `/id_secret` and `_<size>.jpg}`, stray brace included, in that order |
| PhotosView.ThumbnailUrl | src/components/Photos/index.js:38 | the thumbnail names the photo's `/id_secret` and has size letter `w` |
| PhotosView.ClickFields | src/components/Photos/index.js:19 | before any click every destructured field is `undefined`; afterwards they are the clicked photo's |
| PhotosView.ModalAlt | src/components/Photos/index.js:54 | `alt={title}` is left out before any click (`title` is `undefined`) and is the clicked photo's title after |
| PhotosView.ModalUrl | src/components/Photos/index.js:54 | the modal image names the clicked photo's `/id_secret`, or `undefined` fields before any click, with size letter `m` |
| PhotosView.ItemOf | src/components/Photos/index.js:34-41 | a list item is keyed and titled by its photo, shows its thumbnail, and a click on it hands over exactly its fields |
| PhotosView.ThumbnailAndModalDiffer | src/components/Photos/index.js:38-54 | a photo's thumbnail and modal URLs have the same length and differ only in the size letter, `w` against `m` |
| PhotosView.Render | src/components/Photos/index.js:25-59 | one thumbnail per photo in order, keyed by id, iff the list is non-empty; otherwise the no-data message iff not loading, else nothing; the modal iff open, its `src` built from the click data and its `alt` the clicked title, absent before any click |
| PhotosView.ClickedItemOpensItsPhoto | src/components/Photos/index.js:34-55 | the i-th thumbnail hands over the i-th photo, and the modal opened with it shows that photo at modal size with its title |
| PhotosView.ModalBeforeAnyClick | src/components/Photos/index.js:52-55 | before any click the modal URL is built from `undefined` fields |
| PhotosContainer.PageUrl | src/containers/Photos/index.js:37 | the page request carries ten per page and a page parameter that reads back as the page, between the base and the JSON options |
| PhotosContainer.SearchUrl | src/containers/Photos/index.js:54 | the search request carries the term unescaped between the base with ten per page and the JSON options |
| PhotosContainer.Step | src/containers/Photos/index.js:18-90 | only a bumping scroll moves the page, by one; only a click changes the click data; every event keeps `Valid` |
| PhotosContainer.Run | src/containers/Photos/index.js:18-90 | events apply in order; without a click the click data, and without an input event the search term, stay as they were |
| PhotosContainer.PageUrlsDiffer | src/containers/Photos/index.js:37 | different pages are requested under different URLs |
| PhotosContainer.InitialValid | src/containers/Photos/index.js:9-14 | the initial state is valid: page 1, modal closed |
| PhotosContainer.RunKeepsValid | src/containers/Photos/index.js:18-90 | every sequence of events keeps the page at least 1 and the modal open only on clicked data |
| PhotosContainer.RunPage | src/containers/Photos/index.js:18-25 | the page grows by exactly one per scroll with the ref present and near the bottom, and never decreases |
| PhotosContainer.RunPhotos | src/containers/Photos/index.js:39-80 | the list is exactly the one delivered by the last successful fetch of any kind, or the earlier list if none succeeded; nothing is appended |
| PhotosContainer.RunSearchTerm | src/containers/Photos/index.js:65-67 | `searchTerm` is the last typed value, whatever its length |
| PhotosContainer.LoadingAfterCompletion | src/containers/Photos/index.js:39-60 | a page fetch clears the loading flag on success and on failure; a failed search changes nothing; the second page fetch never touches the flag |
| PhotosContainer.ModalToggle | src/containers/Photos/index.js:83-90 | a click flips the modal flag, two clicks restore it, and closing is the same from any state |
| PhotosContainer.Render | src/containers/Photos/index.js:92-106 | the loader shows iff `isLoading` is truthy, and the view gets the state's list, modal flag, loading truthiness and click data |
| PhotosContainer.InitialRender | src/containers/Photos/index.js:10 | initially the loader shows, the list is blank rather than the no-data message, and there is no modal |
| PhotosContainer.OpenModalShowsClickedPhoto | src/containers/Photos/index.js:87-90 | a click that opens the modal shows the clicked photo |
| PhotosContainer.Photos.constructor | src/containers/Photos/index.js:9-14 | the initial hook values |
| PhotosContainer.Photos.RunPageEffects | src/containers/Photos/index.js:32-81 | the loading flag is set and the current page is requested twice |
| PhotosContainer.Photos.HandleScroll | src/containers/Photos/index.js:18-25 | the page grows by one iff the ref exists and the view is near the bottom; nothing else changes |
| PhotosContainer.Photos.HandleSearch | src/containers/Photos/index.js:65-71 | the value is always recorded; it is dispatched iff it has at least three characters |
| PhotosContainer.Photos.FireSearch | src/containers/Photos/index.js:46-63 | sets the loading flag and requests the search for the term |
| PhotosContainer.Photos.PageFetchCompleted | src/containers/Photos/index.js:38-43 | success replaces the list; success or failure clears the loading flag |
| PhotosContainer.Photos.SecondPageFetchCompleted | src/containers/Photos/index.js:77-80 | success replaces the list; failure changes nothing |
| PhotosContainer.Photos.SearchFetchCompleted | src/containers/Photos/index.js:54-60 | success replaces the list and clears the flag; failure changes nothing |
| PhotosContainer.Photos.PhotoClick | src/containers/Photos/index.js:87-90 | flips the modal flag and stores the clicked data |
| PhotosContainer.Photos.HandleModalClose | src/containers/Photos/index.js:83-85 | the modal is closed whatever its previous state |
| MockServer.Decide | mock/api/server.js:25-39 | no data throws; the error shape iff `/errors` occurs in the URL and `statusCode` is truthy, with that status and body `{error: data}` minus `id`; otherwise the data unchanged |
| MockServer.ErrorBodyFields | mock/api/server.js:31-35 | the error body drops `id` only and keeps every other field's value; the status is the record's `statusCode` |
| MockServer.ErrorsAnywhere | mock/api/server.js:31 | `/errors` anywhere in the URL counts, not only as a prefix |
| MockServer.NoErrorsSegmentPassesThrough | mock/api/server.js:31-37 | without the segment any data is passed through with the default status |
| MockServer.Response.constructor | mock/api/server.js:26-28 | the response starts with the router's data, no status set and nothing sent |
| MockServer.Response.Render | mock/api/server.js:25-39 | on an error route `id` is deleted from the data object itself and the reply is sent with its status; otherwise the data is sent as it is; without data it throws and changes nothing |

## Left out

- Network I/O: every `fetch` and `axios` call and the json-server/express wiring and `listen`. Completions are outside events carrying success or failure. The `POST` of `scheduleCampaign` is its returned payload.
- Debounce and throttle. These are imported from a module that does not export them, so the page as written fails when it renders. Their timing is left out, and the debounced search and throttled scroll handler are outside events.
- Adding and removing the scroll listener. The removal passes a fresh wrapper, so it detaches nothing.
- The scroll geometry `pageYOffset + innerHeight > clientHeight - outerHeight * 0.6`: floating point, so it is the boolean `nearBottom`.
- The API configuration. It lacks the `getPhotos`, `searchPhotos` and `getImage` keys that the photo page destructures. Base URLs are parameters instead.
- Campaigns.MomentTimestamp: the round trip through moment's `format()` is stated for every instant in the `Date` range. moment writes the year with four digits and the offset to the minute, so years outside 0–9999 and offsets with seconds may not read back exactly; moment's own code is not part of this model.
- moment's date formats, relative times, i18n translations, the language selector, the Loader, App routing, CSS classes, `classnames`, `cloneElement` and prop spreading: view mechanics without logic.
- DateStatus.CheckDateStatus: one fixed offset from UTC per clock reading. Daylight-saving changes between today and the date are not modelled.
- DateStatus.CheckDateStatus: `Number` on strings covers empty, plain and signed decimal integers only. Fractions, exponents, hex and surrounding white space are not modelled.
- Campaigns.ScheduledDateKeepsDay: proved for time-zone offsets that are whole seconds.
- PhotosContainer.Photos.HandleSearch: `length` counts UTF-16 code units in JavaScript; the model counts characters.
- JsValues.StringToNumber: JavaScript's `Number` also reads fractions, exponents (`"1e3"`), hexadecimal (`"0x10"`), `Infinity` and numerals with surrounding white space (`" 5 "`). The model makes all of these NaN.
- Tabs.Tabs.constructor: requires at least one child. With no children, `children[0].props.label` throws in JavaScript. The only use passes three children.
- DashboardContainer.FindIndex: `===` on records is identity in JavaScript; the model compares ids structurally. The ids are numbers or strings in practice, where the two agree.
- DashboardContainer.Dashboard.CompleteLoad: a response body that is neither an array of campaigns nor `null` is not modelled.
- PhotosView.PhotoItems: a `null` at any level of `photoList` throws in JavaScript and is not modelled. Photo fields are the strings the API sends.
- JsValues.ToNumber: arrays and `Date` objects are not values of the model. In JavaScript `Number([])` is 0, `Number([x])` is `Number(x)` and `Number(date)` is the date's time value, so `checkDateStatus` would read them as instants; the model's `createdOn` values are numbers, strings and non-convertible objects only.
- DashboardContainer.Dashboard.ScheduleCampaign: JavaScript writes `createdOn` into the campaign object itself, which the old array, the posted copy and the rendered row's `rowData` all share. The model replaces the array slot with an updated record value, so that sharing is not captured.
- MockServer.Decide: the mutation of the data object is visible to anything else holding it, such as json-server's store. The model shows it on the response's own `data` only.

## Findings

| source | as written | input that shows it | evidently intended | confidence | as-written member | corrected member |
|---|---|---|---|---|---|---|
| src/components/Dashboard/index.js:12-14 | each of the three `filter` callbacks calls `checkDateStatus`, which reads `new Date()` afresh for every campaign | a render that starts at 23:59:59.999 local time: the live pass runs before midnight and the past and upcoming passes after it. A campaign dated on day 1 is then both live and past, and one dated on day 2 is in no list | one reading of today per render, so that the three lists partition the campaigns | not executed | DashboardView.MidnightBreaksPartition | DashboardView.SplitIsPartition |
