# Network dashboard core, modelled in Dafny

This project models the client-side logic of a network-monitoring dashboard:

- the map view, which checks measurement points, colours them by signal strength or quality and
  places one marker per valid point;
- the map-data hook, which filters the points it fetches, debounces bounds changes and records
  loading and error state;
- the session store (`AuthService`), which keeps a token, a user and an expiry in `localStorage`;
- the shared HTTP client's interceptors, which add the bearer header and drop the token on a 401;
- the `useAuth` hook, which mirrors the stored user in component state;
- the metrics service, which merges four independently settled requests into four dashboard cards;
- the threshold editor of the settings page;
- the generic metrics table, which builds headers, cell texts and a record count;
- the region-list hook, which turns regions into table rows keyed by a slug of their names.

One Dafny module corresponds to each source file. Four helper modules hold shared pieces:

- `Wrappers` holds `Option` and `Result`.
- `Js` holds the JavaScript built-ins the code relies on: `trim`, white space as `\s` sees it,
  ASCII case mapping, `split`/`join` on one character, `includes`, and `toString`/`parseInt` on
  integers.
- `MapTypes` holds the map point and bounds records.
- `Storage` holds `localStorage` as a class over a `map<string, string>`.

Code that the source runs step by step is modelled as imperative Dafny: the marker loop, the
loaders and hooks, `localStorage` and the interceptors. Each such method is specified against pure
functions of the old state, such as `MarkersFor`, `FilterPoints`, `AfterLogin`, `AfterLogout`,
`AfterAuthCheck` and `TransformRegions`. The lemmas then prove the promised properties about those
functions.

Behaviour the model shows, where the code decides it:

- Every request passes through the client's response interceptor first. A login that fails with
  401 therefore removes `auth-token` from storage, and so does a profile fetch that fails with 401.
- In `getAllMetrics` a fulfilled response whose body has no `data` object throws inside the
  `try`. The outer `catch` then makes all four cards null, not only that one. A card's field
  sent as `null` does the same: it passes the `!== undefined` test, and `toFixed` is then called
  on `null`. A field left out of the body only nulls its own card.
- If the stored expiry does not parse as an integer, `parseInt` yields `NaN` and `now >= NaN` is
  false, so `isAuthenticated` answers true.

## Model

| member | source | states |
|---|---|---|
| NetworkMap.GetMetricValue | src/components/map/network-map.tsx:233-242 | the value is signal quality for "quality" and signal strength for every other metric, with a missing field read as 0 |
| NetworkMap.GetColorForValue | src/components/map/network-map.tsx:244-266 | the colour is always one of green, yellow, orange and red |
| NetworkMap.SignalBands | src/components/map/network-map.tsx:247-251 | for "signal" each colour holds exactly on its band: green at -70 or above, yellow on [-85,-70), orange on [-100,-85), red below -100 |
| NetworkMap.QualityBands | src/components/map/network-map.tsx:253-257 | for "quality" each colour holds exactly on its band: green at 80 or above, yellow on [60,80), orange on [40,60), red below 40 |
| NetworkMap.OtherMetricsUseSignalBands | src/components/map/network-map.tsx:259-264 | any metric other than "signal" and "quality" is coloured with the signal bands |
| NetworkMap.ColorMonotone | src/components/map/network-map.tsx:244-266 | a larger value never gets a worse colour band, for every metric |
| NetworkMap.SignalExamples | src/components/map/network-map.tsx:247-251 | -69 is green, -72 is yellow and -101 is red for "signal" |
| NetworkMap.MarkerFor | src/components/map/network-map.tsx:75-93 | a point gets a marker exactly when both coordinates parse and lie within [-90, 90] and [-180, 180]; the marker sits at those coordinates with the colour of the point's metric value |
| NetworkMap.MarkersFor | src/components/map/network-map.tsx:75-170 | there are never more markers than points, and every marker lies within the coordinate ranges and has one of the four band colours |
| NetworkMap.MarkerLayer.ClearLayers | src/components/map/network-map.tsx:56-58 | the layer holds no markers afterwards |
| NetworkMap.MarkerLayer.AddLayer | src/components/map/network-map.tsx:164 | the marker is appended to the layer's markers |
| NetworkMap.RenderMarkers | src/components/map/network-map.tsx:55-170 | while loading or on an error no markers are drawn; otherwise the layer holds exactly the markers of the valid points, in order, and the valid and invalid counts add up to the number of points |
| MapData.FilterPoints | src/lib/hooks/useMapData.ts:37-67 | a point is kept exactly when both coordinate fields are non-blank and parse within range; each kept point keeps all of its occurrences and a dropped one none, and the list never grows |
| MapData.FilterIsSubsequence | src/lib/hooks/useMapData.ts:37-67 | the kept points are a subsequence of the fetched points, so their order is preserved |
| MapData.KeptPointsAllRender | src/lib/hooks/useMapData.ts:37-67 | every point that passes the filter yields a marker on the map, one marker per point |
| MapData.SubsequenceDropFirst | src/lib/hooks/useMapData.ts:37 | dropping the first element of a subsequence leaves a subsequence |
| MapData.SubsequenceExtend | src/lib/hooks/useMapData.ts:37 | a subsequence stays one when an element is prepended to the longer sequence |
| MapData.FailureMessage | src/lib/hooks/useMapData.ts:71-75 | the error is the response's message when it is non-empty, an Error's message when one is thrown, and "Failed to fetch map data" otherwise |
| MapData.MapDataLoader.constructor | src/lib/hooks/useMapData.ts:13-17 | the loader starts with no points, loading on, no error, the initial bounds and no pending timer |
| MapData.MapDataLoader.FetchMapData | src/lib/hooks/useMapData.ts:19-82 | one request is sent with the given bounds; loading ends false; success stores the filtered points and clears the error; failure stores the message and empties the points |
| MapData.MapDataLoader.DebouncedFetch | src/lib/hooks/useMapData.ts:85-93 | any pending timer is replaced by a 500 ms timer for the new bounds; nothing else changes |
| MapData.MapDataLoader.Mount | src/lib/hooks/useMapData.ts:96-103 | with bounds the first fetch is debounced and nothing else changes; without bounds one fetch is sent at once, after which a success shows the filtered points with no error and a failure shows no points and the failure message |
| MapData.MapDataLoader.UpdateBounds | src/lib/hooks/useMapData.ts:109-112 | the bounds are stored and a debounced fetch for them is scheduled |
| MapData.MapDataLoader.TimerFires | src/lib/hooks/useMapData.ts:90-92 | a pending timer sends one fetch with its bounds and is cleared, after which a success shows the filtered points with no error and a failure shows no points and the failure message; without a pending timer nothing changes |
| MapData.MapDataLoader.Refetch | src/lib/hooks/useMapData.ts:105-107 | one fetch is sent at once with the current bounds; a success shows the filtered points with no error, a failure shows no points and the failure message; a pending timer stays |
| MapData.MapDataLoader.Unmount | src/lib/hooks/useMapData.ts:115-121 | the pending timer is cancelled and nothing else changes |
| MapData.BoundsBurst | src/lib/hooks/useMapData.ts:85-112 | a burst of bounds changes followed by the timer sends exactly one request, for the last bounds |
| MapData.RenderLoadedData | src/lib/hooks/useMapData.ts:37-70 | the points a successful fetch stored all render, with no invalid point |
| Storage.LocalStorage.SetItem | src/lib/services/auth.ts:44-46 | the key is set to the value and every other key is unchanged |
| Storage.LocalStorage.RemoveItem | src/lib/services/auth.ts:66-68 | the key is removed and every other key is unchanged |
| Storage.LocalStorage.GetItem | src/lib/services/auth.ts:95 | a value is returned exactly when the key is stored, and it is the stored text |
| Storage.LookupAfterUpdate | src/lib/services/auth.ts:44-46 | a key reads back the value last set under it and nothing once removed; every other key reads as before |
| Axios.WithBearer | src/lib/axios.ts:16-21 | a non-empty stored token sets Authorization to "Bearer " followed by the token; without one the headers are unchanged; no other header is touched |
| Axios.AfterError | src/lib/axios.ts:54-63 | a 401 removes auth-token; any other error leaves storage as it was; no other key is touched |
| Axios.RequestInterceptor | src/lib/axios.ts:13-33 | the same config is passed on, with its headers updated as WithBearer says |
| Axios.ResponseInterceptor | src/lib/axios.ts:41-77 | the outcome is passed on unchanged; a success leaves storage alone; a failure applies AfterError |
| Auth.GetToken | src/lib/services/auth.ts:94-96 | the token is present exactly when auth-token is stored, and it is the stored value |
| Auth.GetUser | src/lib/services/auth.ts:99-108 | no user when auth-user is absent or empty; otherwise the result of parsing the stored text, where a parse failure means no user |
| Auth.IsTokenExpiringSoon | src/lib/services/auth.ts:133-142 | true exactly when a stored expiry is non-empty, parses as an integer, and lies at most five minutes after now |
| Auth.GetTokenExpiration | src/lib/services/auth.ts:145-151 | there is no date exactly when no expiry is stored; a stored expiry that parses gives the date at that many seconds in milliseconds, and one that does not parse gives an invalid date |
| Auth.HasRole | src/lib/services/auth.ts:154-157 | true exactly when the stored user parses and has that role |
| Auth.IsAdmin | src/lib/services/auth.ts:160-162 | the same answer as HasRole for "admin" |
| Auth.LoginErrorMessage | src/lib/services/auth.ts:51-60 | a failed login reports invalid credentials exactly for 401, missing credentials exactly for 400, and the generic failure for every other error |
| Auth.Login | src/lib/services/auth.ts:38-62 | success stores token, user and expiry and returns the response; failure rejects with the message for 401, 400 or any other error, and storage changes only as the client's 401 rule says |
| Auth.Logout | src/lib/services/auth.ts:65-69 | the three session keys are removed |
| Auth.GetProfile | src/lib/services/auth.ts:72-91 | success rewrites the stored user; a 401 clears the session and reports an expired session; any other error reports the profile failure and leaves storage alone |
| Auth.IsAuthenticated | src/lib/services/auth.ts:111-130 | the answer is Authenticated for the storage found, and an expired session is cleared |
| Auth.LogoutExact | src/lib/services/auth.ts:65-69 | logout removes exactly the three session keys, keeps every other entry, is idempotent, and leaves no authenticated session and no user |
| Auth.LoginWritesExactly | src/lib/services/auth.ts:44-46 | login adds exactly the three session keys, with the token, the serialised user and the decimal expiry, and keeps every other entry |
| Auth.LoginStoresReadableExpiry | src/lib/services/auth.ts:44-46 | right after a login the token is stored, and the stored expiry text is non-empty and parses back to the response's expiry |
| Auth.LoginThenAuthenticated | src/lib/services/auth.ts:111-130 | after a login whose expiry is still ahead, the session is authenticated and the check clears nothing |
| Auth.LoginThenExpired | src/lib/services/auth.ts:111-130 | after a login whose expiry has passed, the session is not authenticated and the check removes the session keys |
| Auth.LoginThenStoredUser | src/lib/services/auth.ts:99-108 | with a faithful JSON codec, the stored user reads back as the logged-in user, and the role queries answer for that user's role |
| Auth.LoginThenExpiry | src/lib/services/auth.ts:133-151 | after login the expiration date is the expiry in milliseconds, and "expiring soon" means at most five minutes remain |
| Auth.ExpiredIsExpiringSoon | src/lib/services/auth.ts:111-142 | an expired session is also expiring soon, is not authenticated, and the check removes every session key |
| Auth.UnauthorizedEndsSession | src/lib/axios.ts:56-59 | after a 401 the session is no longer authenticated, while the stored user and expiry stay readable |
| Auth.BearerFollowsSession | src/lib/axios.ts:16-21 | the next request after a login carries "Bearer " followed by the new token; after a logout it carries no token |
| Auth.SessionWellFormedPreserved | src/lib/services/auth.ts:38-130 | a stored token always comes with a stored user and expiry, and login, logout, profile refresh, the expiry check and the 401 rule all keep this |
| UseAuth.HasRole | src/lib/hooks/useAuth.ts:79-81 | true exactly when a user is set and has that role |
| UseAuth.IsAdmin | src/lib/hooks/useAuth.ts:83-85 | the same answer as HasRole for "admin" |
| UseAuth.ConsistentUnderStoreEvents | src/lib/hooks/useAuth.ts:87-104 | the hook's user stays consistent with the stored user under the client's 401 rule and under the expiry check |
| UseAuth.RolesAgreeWithStore | src/lib/hooks/useAuth.ts:79-85 | while a session exists, the hook's role answers agree with the service's answers |
| UseAuth.AuthHook.constructor | src/lib/hooks/useAuth.ts:16-17 | the hook starts with no user and loading on |
| UseAuth.AuthHook.Initialize | src/lib/hooks/useAuth.ts:20-36 | loading ends false; an authenticated store supplies the user; otherwise the user is unchanged and an expired session is cleared |
| UseAuth.AuthHook.Login | src/lib/hooks/useAuth.ts:39-50 | success sets the response's user; failure clears the user and passes the error on; loading ends false |
| UseAuth.AuthHook.Logout | src/lib/hooks/useAuth.ts:53-56 | the session keys and the user are cleared |
| UseAuth.AuthHook.RefreshProfile | src/lib/hooks/useAuth.ts:59-76 | without a session the user is cleared and no call is made; a fetched profile becomes the user; an expired-session error logs out; any other error keeps the user |
| UseAuth.AuthHook.CheckTokenExpiration | src/lib/hooks/useAuth.ts:88-104 | with a user set, an unauthenticated store logs out; otherwise nothing changes |
| UseAuth.AuthHook.IsAuthenticatedView | src/lib/hooks/useAuth.ts:108 | true exactly when a user is set and the store is authenticated; a true answer means the stored user is the hook's user |
| Metrics.FormatSpeed | src/lib/services/metrics.ts:121-132 | kbps speeds switch to Mbps exactly from 1000 on, where the number shown is the speed divided by 1000 and at least 1; otherwise the speed itself is shown; no decimals exactly for a kbps text, one otherwise |
| Metrics.FormatSpeedUnit | src/lib/services/metrics.ts:121-132 | kbps values of at least 1000 are shown in Mbps with one decimal, smaller ones in kbps with none, and other units with one decimal after the unit |
| Metrics.GetAllMetrics | src/lib/services/metrics.ts:66-117 | every non-null card holds the number and unit of its own fulfilled response |
| Metrics.AllMetricsFields | src/lib/services/metrics.ts:66-108 | when no card throws, each card is null exactly when its request failed or its field is left out; each non-null card is formatted as that card requires, both speed cards through FormatSpeed |
| Metrics.CardsIndependent | src/lib/services/metrics.ts:69-108 | a rejected download request nulls only the download card |
| Metrics.ThrowingCardNullsAll | src/lib/services/metrics.ts:76-117 | a fulfilled response without a data object, or with null in the field its card reads, makes all four cards null |
| Metrics.NullDiffersFromAbsent | src/lib/services/metrics.ts:76-117 | a download speed left out nulls only the download card, as a rejected request would; the same field sent as null nulls all four |
| Metrics.GetTimeRangeLabel | src/lib/services/metrics.ts:135-148 | the label is one of the four range names, and it is "Last Hour" exactly for "last-hour" |
| Metrics.TimeRangeLabels | src/lib/services/metrics.ts:135-148 | the four time ranges have their labels, and any other value is labelled like "last-day" |
| Settings.WithField | src/app/dashboard/settings/page.tsx:44 | exactly the chosen field takes the new value and every other field is kept |
| Settings.HandleThresholdChange | src/app/dashboard/settings/page.tsx:37-47 | the list keeps its length and order; each threshold with the given id gets the field update and every other threshold is unchanged |
| Settings.NoMatchUnchanged | src/app/dashboard/settings/page.tsx:42-46 | an id that matches no threshold leaves the list unchanged |
| Settings.ChangeIdempotent | src/app/dashboard/settings/page.tsx:42-46 | applying the same change twice gives the same list as applying it once |
| Settings.InitialThresholdIds | src/app/dashboard/settings/page.tsx:16-33 | there are two initial thresholds, with the distinct ids "1" and "2" |
| DynamicMetricsTable.Capitalize | src/components/metrics/dynamic-metrics-table.tsx:84 | a capitalised word keeps its length and every character but the first, which is upper-cased |
| DynamicMetricsTable.PipelineIsHeaderChars | src/components/metrics/dynamic-metrics-table.tsx:81-86 | splitting on '_', capitalising and joining with ' ' equals the character-by-character rewrite HeaderChars |
| DynamicMetricsTable.FormatHeader | src/components/metrics/dynamic-metrics-table.tsx:81-86 | a formatted header is the label rewritten character by character, with '_' turned into a blank and the first character of every word upper-cased, so it has the label's length |
| DynamicMetricsTable.FormatHeaderShape | src/components/metrics/dynamic-metrics-table.tsx:81-86 | a header is as long as its label and contains no '_'; its blanks sit exactly where the label has a '_' or a blank; each character is the label's, upper-cased at the start of a word |
| DynamicMetricsTable.HeaderCharsIndex | src/components/metrics/dynamic-metrics-table.tsx:81-86 | the reference rewrite, read position by position |
| DynamicMetricsTable.FormatValue | src/components/metrics/dynamic-metrics-table.tsx:59-78 | null and undefined show "N/A", true shows "Yes" and false "No", text shows as it is, and a number goes through toLocaleString or toFixed(2) |
| DynamicMetricsTable.FormatValueCases | src/components/metrics/dynamic-metrics-table.tsx:59-78 | whole numbers go through toLocaleString and fractions, negative ones included, through toFixed(2) |
| DynamicMetricsTable.Render | src/components/metrics/dynamic-metrics-table.tsx:10-56 | exactly one view is shown: loading whenever loading, else the error text when it is non-empty, else the empty view when values are missing or empty, else the table |
| DynamicMetricsTable.TableShape | src/components/metrics/dynamic-metrics-table.tsx:88-124 | one header per label; one row per value with one cell per label, in label order; the count says "record" exactly for one value |
| DynamicMetricsTable.Footer | src/components/metrics/dynamic-metrics-table.tsx:123 | the footer starts with "Showing " and ends in "s" exactly when the count is not one |
| RegionList.CollapseWhitespace | src/lib/hooks/useRegionList.ts:27 | replacing the white-space runs never lengthens the text |
| RegionList.CollapseHasNoWhitespace | src/lib/hooks/useRegionList.ts:27 | the result of replacing the white-space runs contains no white space |
| RegionList.CollapseCharAt | src/lib/hooks/useRegionList.ts:27 | each character of the result is either a '-' or a non-white-space character of the input |
| RegionList.SlugSeparatesWords | src/lib/hooks/useRegionList.ts:27 | each maximal white-space run between two parts of a name becomes exactly one '-' |
| RegionList.CollapseAppend | src/lib/hooks/useRegionList.ts:27 | replacing runs commutes with a split that does not cut a white-space run |
| RegionList.CollapseRun | src/lib/hooks/useRegionList.ts:27 | a non-empty white-space run becomes a single '-' |
| RegionList.CollapseNoWhitespace | src/lib/hooks/useRegionList.ts:27 | a name without white space is left unchanged |
| RegionList.Slug | src/lib/hooks/useRegionList.ts:27 | an id contains no white space and is no longer than the name |
| RegionList.SlugIdempotent | src/lib/hooks/useRegionList.ts:27 | slugging an id again changes nothing |
| RegionList.LowerOfSlug | src/lib/hooks/useRegionList.ts:27 | an id is already lower case |
| RegionList.CollapseKeepsLower | src/lib/hooks/useRegionList.ts:27 | replacing runs adds no upper-case letter |
| RegionList.ToRow | src/lib/hooks/useRegionList.ts:26-34 | a row's id is free of white space and no longer than the name; the name and the five measurement fields are copied |
| RegionList.TransformRegions | src/lib/hooks/useRegionList.ts:26-34 | one row per region, in order; the id is the slug of the name, and the name and the five metric fields are copied unchanged |
| RegionList.RegionListHook.constructor | src/lib/hooks/useRegionList.ts:15-17 | the hook starts with no rows, loading on and no error |
| RegionList.RegionListHook.FetchRegionList | src/lib/hooks/useRegionList.ts:19-42 | loading ends false; success replaces the rows and leaves no error; failure records the message and keeps the old rows |
| RegionList.Mount | src/lib/hooks/useRegionList.ts:44-46 | mounting runs one fetch on the initial state |
| Js.TrimStart | src/lib/hooks/useMapData.ts:41-42 | the result is a suffix of the input, everything dropped is white space, and the result does not start with white space |
| Js.Trim | src/lib/hooks/useMapData.ts:41-42 | the result is a contiguous part of the input with only white space before and after it, neither starts nor ends with white space, and is empty exactly when the input is all white space |
| Js.TrimEnd | src/lib/hooks/useMapData.ts:41-42 | the result is a prefix of the input, everything dropped is white space, and the result does not end in white space |
| Js.Split | src/components/metrics/dynamic-metrics-table.tsx:83 | a string splits into one more piece than it has separators, and no piece contains the separator |
| Js.JoinSplit | src/components/metrics/dynamic-metrics-table.tsx:83-85 | joining the pieces with the separator gives the string back |
| Js.Contains | src/lib/hooks/useAuth.ts:71 | true exactly when the substring occurs at some position |
| Js.NatToString | src/lib/services/auth.ts:46 | the text is non-empty, all digits, and has no leading zero |
| Js.IntToString | src/lib/services/auth.ts:46 | the text is non-empty, starts with '-' exactly for a negative number, and is all digits after that |
| Js.ParseInt | src/lib/services/auth.ts:120 | a number is read exactly when, after leading white space and an optional sign, a digit follows; a negative result comes only from a leading '-' |
| Js.ParseIntOfIntToString | src/lib/services/auth.ts:120 | parseInt reads back the integer that toString wrote |

## Left out

- Leaflet itself is not modelled: the map object, its events, circle styling and popup HTML. The layer is the list of markers.
- Console logging is left out.
- HTTP is not modelled: each request's outcome is an input to the method that awaits it. `getMapData` and `getRegionList` are not part of this model.
- Time is not modelled. Bounds changes, timer expiry, refetch and unmount are separate events, and each fetch is atomic, so responses cannot interleave.
- `parseFloat` is a parameter (`None` stands for `NaN`), because floating-point parsing is not modelled.
- `toFixed` and `toLocaleString` are symbolic. Numbers are reals, so `NaN` and infinities are left out.
- `JSON.stringify`/`JSON.parse` form an abstract codec. The properties that read the user back assume it is faithful.
- Case mapping covers ASCII letters only. JavaScript's full Unicode `toUpperCase`/`toLowerCase` is not modelled.
- `IntToString` writes integers in plain decimal. The exponent form JavaScript uses for very large numbers is left out. `Auth.LoginResponse.expiresAt` is an integer, so a fractional expiry, which `toString` writes with a fraction and `parseInt` reads back truncated, is not expressed.
- The `try`/`catch` around each marker in the map view, and the `catch` in `useAuth`'s initialisation, are left out. Nothing inside them can throw in the model.
- React effect scheduling is left out: dependency arrays, re-renders and stale closures. Each callback is a method on the current state.
- Mount effects in `useAuth` and `useMapData` are explicit method calls.
- NetworkMap.RenderMarkers: the data-count overlay text of the map view is left out.
- RegionList.RegionListHook.FetchRegionList: a response without `data.regions` throws a `TypeError` in the source. The model covers that as a thrown error whose message is a parameter.
- Other pages, charts, alert lists and the remaining hooks are outside this model.
