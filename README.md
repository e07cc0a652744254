# Hear Ye mobile client — a Dafny model of its core

Hear Ye is a React Native app. A citizen follows the bills their representatives
vote on, votes on topics and compares their vote with their district's. This
project models the client's core logic in Dafny and proves properties of that model:

- **Request pipeline** (`Api`). This is `request(path, method, options)`. It builds
  the headers, URL and body, then fetches. A 401 answer re-authenticates and retries
  (or logs out); any other refused answer throws the error its status selects.
- **Token handling** (`Auth`):
  - `getToken` and `setToken`. The access token lives in storage; the other kinds
    live in the keychain.
  - `RefreshToken` and `Authenticate`.
  - `userStillNeeds`.
  - `Logout`.
- **API base URL** (`Url`). The development or production base, followed by `/api/`.
- **Storage wrapper** (`Storage`). `set` writes a value as text according to its
  `typeof`. The typed getters read it back.
- **Incremental fetch hook** (`Pagination`). This is `useFetch`: a page cursor, a
  fetch flag and the list loaded so far.
- **Dashboard** (`Dashboard`):
  - the topic feed (`getTopics`, `useTopics`);
  - the time-of-day greeting;
  - the feed's item rendering and the navigation when an item is pressed.
- **Analytics screen** (`Analytics`). The "voted with district" verdict, the labels
  and the pie-chart data.
- **Personal screen** (`Personal`):
  - `toIsoString` with its `pad` helper;
  - the count of contributions per day;
  - what pressing a day of the contribution graph does.
- **District selection** (`SelectDistrict`). Reading the district under the map,
  the confirmation guard, and the registration request.
- **Web view links** (`WebView`). Only http(s) navigations are handed to the system
  browser.
- **App launch** (`Launch`). Authenticate, choose the root, and open the
  district modal if it is needed.
- **Settings** (`Settings`). The account-deletion dialog and the logout button.

The JavaScript runtime pieces the code relies on are modelled as values and
functions:

- `JsValues`: JavaScript values (numbers are integers or `NaN`; objects are ordered
  entry lists), truthiness, property reads that throw on `undefined`/`null`, and
  object spread and assignment.
- `JsStrings`: strings, number-to-text and `parseInt`, `indexOf`, `includes`, `split`
  and `toLowerCase`.
- `Json`: a JSON text codec. `JSON.parse(JSON.stringify(v)) == v` is proved for the
  values it covers.

The outside world is class `Platform.Services`. It holds AsyncStorage, the keychain,
a script of fetch replies, and logs of the fetches, navigation calls, alerts and
opened links. `World` is a snapshot of that state. Each state-changing operation is
written twice:

- a function on `World` saying what the operation does;
- a method on `Services` (or on the screen's class) that does it in place, and
  whose `ensures` ties it to that function.

The properties are lemmas about the functions. A screen's React state cells are the
fields of a class: `FetchHook`, `GreetingText`, `PersonalScreen`, `DistrictPicker`
and `SettingsScreen`.

The model follows the code as written, including these behaviours a reader might not expect:

- `request` tests `response.statusCode`, a property a fetch `Response` does not
  have. So a refused answer always throws the generic `ApiError`, and nothing
  re-authenticates (`Api.ResponseWithoutStatusCode`). A scripted response may carry
  a code to exercise the 400/403/5xx and 401 branches.
- There is no 404 error class.
- The raw access token is sent as `Authorization`, with no `Bearer ` prefix.
- The 401 retry is not capped. The model terminates because the script of replies
  is finite.
- The keychain service is `"us.hearye.voting" + kind`, with no separator. `Logout`
  resets only the bare `"us.hearye.voting"` entry, so the refresh and Velnota
  tokens survive it (`Auth.LogoutKeepsKindTokens`).
- `getContributions` and `getDayContributionDetail` call `request` without an
  options object. That throws before anything is fetched, so both always give `[]`
  (`Personal.RequestsWithoutOptionsAreEmpty`).
- The feed's press handler reads `key` from its props, which React does not pass on.
  So the `topic_id` it sends is always `undefined`.

## Model

| member | source | states |
|---|---|---|
| Api.Classify | src/api/components/base.js:131-144 | 400 selects BadRequestError, 403 ForbiddenError, 500 and above ServerError, anything else (also no code) the generic ApiError; each kind exactly for its codes |
| Api.RequestHeaders | src/api/components/base.js:100-109 | the headers sent never hold two entries of the same name |
| Api.RequestUrl | src/api/components/base.js:111 | the URL starts with the API URL |
| Api.RequestBody | src/api/components/base.js:115-119 | an object or array body is sent as text; any other body is sent unchanged |
| Api.RequestW | src/api/components/base.js:97-145 | the request pipeline never changes the API URL |
| Api.Request | src/api/components/base.js:97-145 | the method does what `RequestW` says to the world, including the 401 retry rounds |
| Api.RequestWithoutOptions | src/api/components/base.js:104-106 | an `undefined` or `null` options object throws TypeError and nothing is fetched |
| Api.HeadersLookup | src/api/components/base.js:100-109 | a caller header wins; otherwise Accept and Content-Type are application/json, and Authorization is the access token exactly when `authenticated` is not `false` |
| Api.RequestUrlLeadingSlash | src/api/components/base.js:111 | one leading '/' of the path is dropped, so `/p` and `p` fetch the same URL, API URL + path |
| Api.RequestBodyEncoding | src/api/components/base.js:115-119 | an object or array body becomes JSON text that parses back to it; a string or falsy body is sent unchanged |
| Api.RequestOk | src/api/components/base.js:122-124 | an ok first answer is returned after exactly one fetch, with nothing else changed |
| Api.RequestFailure | src/api/components/base.js:131-144 | a refused non-401 answer throws its classified error with the status text and the response, after one fetch |
| Api.ResponseWithoutStatusCode | src/api/components/base.js:125-141 | a refused response without `statusCode` always throws the generic ApiError |
| Api.RequestUnauthorized | src/api/components/base.js:125-130 | a 401 whose re-authentication fails gives `undefined`, after logging out (access token deleted, login root set) |
| Api.RequestRetries | src/api/components/base.js:125-128 | a 401 followed by a truthy re-authentication sends the same path, method and options again and resolves to exactly what that request does |
| Api.RequestRefreshedOnce | src/api/components/base.js:122-128 | a 401, an accepted refresh and an ok answer: the ok response is returned after three fetches (the request, the refresh endpoint, the identical request again) |
| Api.RequestOutcome | src/api/components/base.js:122-144 | over any number of 401 rounds, a returned response is ok and every thrown ApiError is the classified error of a refused non-401 response |
| Api.RequestKeepsStorage | src/api/components/base.js:97-145 | the pipeline changes no storage key except the access token |
| Auth.GetToken | src/api/components/auth.js:24-39 | 'access' reads storage (`null` when absent); the three keychain kinds read their own entry (`undefined` when absent); any other kind throws 'Invalid token type' |
| Auth.SetTokenW | src/api/components/auth.js:46-59 | the access kind writes storage, the keychain kinds write their own entry, other kinds change nothing |
| Auth.SetToken | src/api/components/auth.js:46-59 | the method does what `SetTokenW` says |
| Auth.RefreshTokenW | src/api/components/auth.js:65-85 | one fetch, to the refresh endpoint; every keychain entry other than the refresh one keeps its presence and its value |
| Auth.RefreshKeepsObtainCall | src/api/components/auth.js:94-105 | the obtain request that follows a refresh sends the same Velnota tokens as before it |
| Auth.RefreshToken | src/api/components/auth.js:65-85 | the method does what `RefreshTokenW` says |
| Auth.ObtainW | src/api/components/auth.js:96-117 | one fetch, to the obtain endpoint; only tokens may change |
| Auth.Obtain | src/api/components/auth.js:96-117 | the method does what `ObtainW` says |
| Auth.AuthenticateW | src/api/components/auth.js:93-120 | keeps the API URL, navigation, alerts and links, and uses at most the replies it has |
| Auth.Authenticate | src/api/components/auth.js:93-120 | the method does what `AuthenticateW` says |
| Auth.Logout | src/api/components/auth.js:145-149 | deletes the access token, resets the bare service entry and sets the login root |
| Auth.UserStillNeeds | src/api/components/auth.js:134-143 | a boolean passes through; `null`/`undefined` throws; the task list is [1] exactly for an object with an own falsy `district`, else [] |
| Auth.ServiceOfInjective | src/api/components/auth.js:33 | different token kinds use different keychain services |
| Auth.TokenRoundTrip | src/api/components/auth.js:24-59 | a token that was set reads back: any value for a keychain kind, any string for the access token |
| Auth.TokenKindsIndependent | src/api/components/auth.js:46-59 | setting one kind leaves every other kind's value unchanged |
| Auth.RefreshBody | src/api/components/auth.js:67-76 | the refresh request POSTs JSON `{"refresh": token}` (or `{}` with no token) with JSON headers to `users/v1/token/refresh/` |
| Auth.RefreshTokenOutcome | src/api/components/auth.js:65-85 | RefreshToken is true exactly when the answer is ok JSON that is not null; it then stores the answer's `refresh`; it never changes the access token, and on failure changes no token |
| Auth.AuthenticateOutcome | src/api/components/auth.js:93-120 | unforced with a successful refresh: true after one fetch; otherwise two fetches, the second to the obtain endpoint; a false result leaves the access token as it was |
| Auth.AuthenticateObtains | src/api/components/auth.js:94-117 | after a failed refresh, or when forced: a rejected, non-ok, non-JSON, null or undefined obtain answer gives false with storage untouched; an accepted one gives its data with both tokens stored |
| Auth.AuthenticateForced | src/api/components/auth.js:93-119 | a forced Authenticate is true only if the obtain endpoint answered with the JSON `true` |
| Auth.ObtainStoresTokens | src/api/components/auth.js:108-114 | an ok answer with JSON data that is neither null nor undefined is returned as the data, its `refresh_token` becomes the refresh token and a string `access_token` the access token |
| Auth.LogoutKeepsKindTokens | src/api/components/auth.js:145-149 | after Logout the access token reads `null`, while the refresh and Velnota entries are kept |
| Auth.AuthenticateKeepsStorage | src/api/components/auth.js:93-120 | Authenticate writes no storage key other than the access token |
| Url.LocalUrl | src/api/components/url.js:12-17 | exactly one trailing '/' of the local base is removed, or the base is unchanged |
| Url.ApiUrl | src/api/components/url.js:19 | the URL ends in '/api/'; production is 'https://hearye.us/api/'; development is the local URL followed by '/api/' |
| Url.ApiUrlDefault | src/api/components/url.js:13-15 | an unset or empty LOCAL_API_URL gives 'http://localhost:8001/api/' in development |
| Url.LocalUrlJoin | src/api/components/url.js:16 | the local URL still ends in '/' exactly when the base ended in '//' |
| Url.LocalUrlKeeps | src/api/components/url.js:16-19 | a non-empty configured URL without a trailing '/' is used as is, followed by '/api/' |
| Storage.Encode | src/utils/components/Storage.js:32-49 | nothing is written exactly for `undefined`; objects, arrays and `null` are written as their JSON text |
| Storage.Set | src/utils/components/Storage.js:32-49 | the method does what `SetW` says |
| Storage.Delete | src/utils/components/Storage.js:55-57 | the method removes the key |
| Storage.GetString | src/utils/components/Storage.js:63-65 | `null` exactly for a missing key, else the stored text |
| Storage.GetBoolean | src/utils/components/Storage.js:71-73 | `null` for a missing key, else whether the text is '1' |
| Storage.GetObject | src/utils/components/Storage.js:88-90 | `null` for a missing key and for text that is not JSON, else the parsed value |
| Storage.GetNumber | src/utils/components/Storage.js:80-82 | `null` for a missing key, else a number or NaN |
| Storage.UtilHandlerMissing | src/utils/components/Storage.js:12-17 | a missing key reads as `null`, whatever the decoder |
| Storage.SetUndefined | src/utils/components/Storage.js:46-47 | setting `undefined` changes nothing |
| Storage.SetFrame | src/utils/components/Storage.js:32-49 | `set` changes only its own key, and only the storage |
| Storage.StringRoundTrip | src/utils/components/Storage.js:34-35 | a stored string reads back unchanged through getString |
| Storage.BooleanRoundTrip | src/utils/components/Storage.js:37-39 | a stored boolean reads back unchanged through getBoolean |
| Storage.NumberRoundTrip | src/utils/components/Storage.js:40-42 | a stored integer or NaN reads back unchanged through getNumber |
| Storage.ObjectRoundTrip | src/utils/components/Storage.js:88-90 | a stored object, array or `null` that JSON carries reads back unchanged through getObject |
| Storage.DeleteReadsNull | src/utils/components/Storage.js:55-57 | after delete every getter reads `null` for that key; other keys keep their text |
| Json.ParseOfStringify | src/utils/components/Storage.js:43-44 | JSON.parse gives back exactly the value JSON.stringify wrote, for every value JSON carries |
| Pagination.Init | src/utils/functions/infiniteFetch.js:13-15 | the hook starts at the initial page, wanting a fetch, with no items |
| Pagination.FetchHook.FetchMore | src/utils/functions/infiniteFetch.js:16 | fetchMore only raises the flag |
| Pagination.FetchHook.Effect | src/utils/functions/infiniteFetch.js:18-32 | the effect fetches exactly when the flag is up and the page truthy; the new state is `EffectS` |
| Pagination.FirstRunFetches | src/utils/functions/infiniteFetch.js:13-29 | the first run fetches exactly when the initial page is truthy, and then holds that batch |
| Pagination.EffectAppends | src/utils/functions/infiniteFetch.js:20-29 | a fetch appends the batch's items in order, moves the cursor to `next` and lowers the flag; a skipped run changes nothing |
| Pagination.FetchMoreIdempotent | src/utils/functions/infiniteFetch.js:16 | any number of fetchMore calls equals one |
| Pagination.FalsyPageStops | src/utils/functions/infiniteFetch.js:20-22 | once the cursor is falsy, no event fetches or changes the items or the cursor |
| Pagination.TopicsOnlyGrow | src/utils/functions/infiniteFetch.js:24-29 | items only grow at the end, and there is at most one fetch per event |
| Dashboard.Without | src/Dashboard/DashboardScreen.js:25 | `...rest` has no `id` and keeps every other property |
| Dashboard.TopicItem | src/Dashboard/DashboardScreen.js:25-28 | destructuring throws exactly for `undefined` or `null` |
| Dashboard.MapTopics | src/Dashboard/DashboardScreen.js:25-28 | the map succeeds exactly when every element does, and then maps them pointwise and in order |
| Dashboard.GetTopicsW | src/Dashboard/DashboardScreen.js:19-36 | a page that is not a string gives the empty batch with no fetch |
| Dashboard.GetTopics | src/Dashboard/DashboardScreen.js:19-36 | the method does what `GetTopicsW` says |
| Dashboard.TopicsEffect | src/Dashboard/DashboardScreen.js:44-58 | the effect fetches exactly when the hook's guard holds; the new hook and world are `TopicsEffectW` |
| Dashboard.Candidates | src/Dashboard/DashboardScreen.js:69 | the draw list is the time greetings followed by 'Welcome back!' |
| Dashboard.GetRandomEl | src/Dashboard/DashboardScreen.js:68-71 | the greeting drawn is one of the candidates |
| Dashboard.GreetingText.Render | src/Dashboard/DashboardScreen.js:76-98 | one render updates the cells as `RenderS` says |
| Dashboard.RenderItem | src/Dashboard/DashboardScreen.js:176-190 | throws exactly when `item` or `item.data` is nullish; a summary item exactly for `type` 0, carrying `item.data` |
| Dashboard.SummaryRoute | src/Dashboard/DashboardScreen.js:121-156 | throws exactly for a nullish topic; otherwise a push from the pressed item's component, of the summary screen exactly when `user_vote` is `null` and of the analytics screen otherwise |
| Dashboard.PressSummaryItem | src/Dashboard/DashboardScreen.js:120-157 | pressing pushes the screen `SummaryRoute` chooses |
| Dashboard.TopicItemShape | src/Dashboard/DashboardScreen.js:25-28 | each result becomes `{key: id, data: rest}`; `rest` keeps every other property |
| Dashboard.GetTopicsPage | src/Dashboard/DashboardScreen.js:21-29 | an ok page `{next, results}` gives `next` and the mapped results, after one GET |
| Dashboard.GetTopicsFailure | src/Dashboard/DashboardScreen.js:30-35 | a failed page gives `{next: null, data: []}` |
| Dashboard.TopicsFeed | src/Dashboard/DashboardScreen.js:38-58 | the feed starts at 'content/topic/' and fetches first; a failed page ends the feed |
| Dashboard.TopicsEffectIdle | src/Dashboard/DashboardScreen.js:46-48 | an effect that does not fetch changes neither the hook nor the world |
| Dashboard.BucketByMinuteOfDay | src/Dashboard/DashboardScreen.js:78-98 | night is before 5:00 or from 23:30; morning until 12:00; afternoon until 18:00; evening otherwise |
| Dashboard.EveryCandidateDrawn | src/Dashboard/DashboardScreen.js:68-71 | every candidate can be drawn |
| Dashboard.RenderSettles | src/Dashboard/DashboardScreen.js:78-98 | a render leaves the current bucket and one of its greetings; rendering again in that bucket changes nothing |
| Dashboard.FirstRenderGreets | src/Dashboard/DashboardScreen.js:73-98 | the first render always sets a greeting |
| Dashboard.SummaryRouteChoice | src/Dashboard/DashboardScreen.js:121-156 | the summary screen exactly for `user_vote === null`, else analytics; pushed on the given component, `topic_id` undefined |
| Analytics.PersonPrefix | src/Dashboard/Summary/screens/Analytics.js:47 | 'Rep.' exactly for a numeric district, else 'Sen.' |
| Analytics.Majority | src/Dashboard/Summary/screens/Analytics.js:50-53 | the reduce throws exactly for an empty table |
| Analytics.VotedWithDistrict | src/Dashboard/Summary/screens/Analytics.js:50-57 | throws exactly for an empty table or a nullish vote |
| Analytics.VoteLabel | src/Dashboard/Summary/screens/Analytics.js:153-168 | '0' Nay, '1' Yea, '2' Not Voting, anything else Present, each exactly for its type |
| Analytics.PieChartData | src/Dashboard/Summary/screens/Analytics.js:149-176 | one chart entry per vote key, in order, labelled by the key's last '_' piece |
| Analytics.ChartTitle | src/Dashboard/Summary/screens/Analytics.js:184-186 | the district title exactly when there is a first key and it contains 'district', else the nation title |
| Analytics.MajorityFrom | src/Dashboard/Summary/screens/Analytics.js:51-53 | the key the reduce keeps is always one of the table's keys |
| Analytics.MajorityFromMax | src/Dashboard/Summary/screens/Analytics.js:51-53 | the reduce keeps a maximal count, and no later key has as many |
| Analytics.MajorityIsLastMaximum | src/Dashboard/Summary/screens/Analytics.js:50-53 | the majority key has the largest count, and ties go to the later key |
| Analytics.VotedWithDistrictByType | src/Dashboard/Summary/screens/Analytics.js:54-57 | with majority key `…_t`, the representative voted with the district exactly when their integer vote is t |
| Analytics.LocationLabel | src/Dashboard/Summary/screens/Analytics.js:72-74 | the label starts with the state and ends with the party in parentheses, and is longer by the district's text plus one exactly when the district is not `null` |
| Analytics.LocationLabelParts | src/Dashboard/Summary/screens/Analytics.js:72-74 | between state and party the label holds nothing exactly for a `null` district, and '-' followed by the district otherwise |
| Analytics.LabelsTellChambersApart | src/Dashboard/Summary/screens/Analytics.js:72-74 | a senator's label (null district) differs from a representative's |
| Analytics.SliceLabel | src/Dashboard/Summary/screens/Analytics.js:150-175 | an entry `…_t` is labelled and coloured by type t, with its count as `votes` |
| Personal.JsRem | src/Personal/index.js:145 | JavaScript `%`: the remainder of the absolute values, with the sign of the dividend |
| Personal.PadValue | src/Personal/index.js:125-128 | pad writes the floor of the absolute value in decimal, with a '0' in front exactly when that is below 10 |
| Personal.PadTwoDigits | src/Personal/index.js:125-128 | below 100, pad gives two digits that read back as n |
| Personal.DatePartShape | src/Personal/index.js:131-135 | the date part is YYYY-MM-DD, with month = getMonth() + 1 |
| Personal.TimePartShape | src/Personal/index.js:137-141 | the time part is HH:MM:SS |
| Personal.OffsetPartShape | src/Personal/index.js:123-145 | the sign is '+' exactly when -getTimezoneOffset() >= 0, followed by the absolute offset's whole hours and its remaining minutes, each padded |
| Personal.ToIsoString | src/Personal/index.js:122-147 | for any date the text ends in ':' and two digits denoting the offset's minutes (the absolute offset mod 60) |
| Personal.IsoShape | src/Personal/index.js:122-147 | toIsoString is YYYY-MM-DDTHH:MM:SS±HH:MM, and each field reads back as the date's |
| Personal.Firsts | src/Personal/index.js:213-217 | the days in `newData` are the distinct input days, each once |
| Personal.CountContributions | src/Personal/index.js:208-222 | the two loops give `Tallied`: each distinct day once, in first-occurrence order, with its occurrence count |
| Personal.CountDays | src/Personal/index.js:208-217 | the first loop leaves each distinct day once, in first-occurrence order, with `newData[day]` equal to its number of occurrences |
| Personal.ListCounts | src/Personal/index.js:219-222 | the second loop gives one `{date, count}` per key of `newData`, in the keys' order, with that key's count |
| Personal.TalliedDistinct | src/Personal/index.js:219-222 | no day is listed twice |
| Personal.TalliedCounts | src/Personal/index.js:209-222 | a day is listed exactly when it occurs, with its number of occurrences |
| Personal.FirstsInOrder | src/Personal/index.js:209-221 | days are listed in the order of their first occurrence |
| Personal.TalliedTotal | src/Personal/index.js:209-222 | the counts add up to the number of contributions |
| Personal.RequestsWithoutOptionsAreEmpty | src/Personal/index.js:41-78 | the day detail and the contribution list are always `[]`, with nothing fetched |
| Personal.PersonalScreen.GetDayPress | src/Personal/index.js:238-257 | the method does what `DayPressW` says to the screen and the world |
| Personal.DayPressOutcome | src/Personal/index.js:238-257 | the pressed date is shown and fetching ends cleared; a falsy count empties the list with no request; a truthy count sets the list to the detail, which is always `[]` |
| SelectDistrict.DistrictPicker.DisplayLocation | src/Landing/SelectDistrict/index.js:173-206 | the method does what `DisplayLocationW` says |
| SelectDistrict.DistrictPicker.SendRegistration | src/Landing/SelectDistrict/index.js:208-225 | the method does what `SendRegistrationW` says |
| SelectDistrict.DistrictPicker.FinalizeDistrict | src/Landing/SelectDistrict/index.js:227-243 | the method does what `FinalizeDistrictW` says |
| SelectDistrict.EmptyQueryAlerts | src/Landing/SelectDistrict/index.js:188-205 | an empty query alerts 'Invalid district' and keeps the selection and the dialog |
| SelectDistrict.FirstFeatureSelected | src/Landing/SelectDistrict/index.js:188-202 | a non-empty query selects the first feature's properties and shows the confirmation |
| SelectDistrict.FinalizeWithoutSelection | src/Landing/SelectDistrict/index.js:228-231 | with no selection, one alert and no request, storage write or navigation |
| SelectDistrict.FinalizeCancelled | src/Landing/SelectDistrict/index.js:232-242 | cancelling the confirmation registers nothing |
| SelectDistrict.RegistrationParsing | src/Landing/SelectDistrict/index.js:210-213 | 'S-D…' sends state S and district D, except that 'AL' is sent as 0 |
| SelectDistrict.CodeWithoutDash | src/Landing/SelectDistrict/index.js:210 | a code without '-' is sent as the state, with an undefined district |
| SelectDistrict.DistrictStored | src/Landing/SelectDistrict/index.js:209 | the selection is stored under 'district' and survives the request |
| SelectDistrict.RegistrationOutcome | src/Landing/SelectDistrict/index.js:214-224 | once the request completes it dismisses the modal; a thrown error only alerts |
| SelectDistrict.RegistrationAccepted | src/Landing/SelectDistrict/index.js:208-218 | an accepted registration stores, POSTs once to the registration path and dismisses the modal |
| SelectDistrict.RegistrationWithoutCode | src/Landing/SelectDistrict/index.js:209-210 | a missing or non-string Code throws after the store and before any request |
| WebView.HandleStateChange | src/utils/functions/webview.js:22-30 | the method does what `HandleStateChangeW` says |
| WebView.WebSchemeIsPrefix | src/utils/functions/webview.js:27 | the test is a case-sensitive prefix test for 'https://' or 'http://' |
| WebView.FalsyUrlIgnored | src/utils/functions/webview.js:23-26 | a falsy url does nothing |
| WebView.StringUrlOutcome | src/utils/functions/webview.js:27-29 | a string url is opened once, as it is, exactly when it has a web scheme; otherwise nothing happens |
| WebView.OtherSchemesIgnored | src/utils/functions/webview.js:27 | 'about:blank', 'mailto:…' and 'HTTP://x' are not opened |
| Launch.AppLaunched | index.js:36-71 | the method does what `LaunchW` says |
| Launch.AuthenticateNotNullish | src/api/components/auth.js:93-120 | Authenticate never gives `undefined` or `null` |
| Launch.LaunchNavigation | index.js:36-71 | Authenticate(true) once (refresh then obtain) before any navigation; then root and at most the modal; dashboard exactly when the data is truthy; the launch never throws |
| Launch.ModalWhenDistrictMissing | index.js:41-70 | the district modal is shown, once, exactly when the data has an own falsy `district`; never for a boolean result |
| Settings.SettingsScreen.HandleCancel | src/Personal/Settings/index.js:37-39 | hides the dialog and keeps the text |
| Settings.SettingsScreen.ShowDelete | src/Personal/Settings/index.js:83-85 | shows the dialog and keeps the text |
| Settings.SettingsScreen.ChangeText | src/Personal/Settings/index.js:59 | the input text becomes `accDeleteVal` |
| Settings.SettingsScreen.DeleteAcc | src/Personal/Settings/index.js:40-44 | DeleteLoggedInAccount is called exactly when the lower-cased text is 'delete' or '"delete"'; the dialog and text do not change |
| Settings.SettingsScreen.PressLogout | src/Personal/Settings/index.js:70 | the Logout button logs out |
| Settings.ConfirmsAnyCase | src/Personal/Settings/index.js:41 | 'Delete' and '"DELETE"' confirm |
| Settings.OtherTextsDoNotConfirm | src/Personal/Settings/index.js:41 | 'delete!', '' and "'delete'" do not confirm |
| Settings.NoTrimming | src/Personal/Settings/index.js:41 | a leading or trailing space never confirms |
| Settings.ConfirmingTexts | src/Personal/Settings/index.js:41 | a confirming text is 'delete' in any letter case, bare or in double quotes |

## Left out

- Asynchrony: promises, React render batching and effect re-runs. Every operation runs to completion in sequence, and a rejected promise is a thrown `Abrupt` completion.
- The network, AsyncStorage, the keychain, navigation and alerts are the `Services` state. A fetch takes the next scripted reply, and an exhausted script is a rejected fetch. This bound is also what ends the uncapped 401 retry.
- Numbers are integers plus `NaN`. Fractions, infinities and `-0` are not modelled, and JSON numbers are integers without exponent.
- The keychain is assumed to store a password value as given, and an absent entry reads as `false`. Native keychain behaviour past that is not modelled.
- Object key order is insertion order. JavaScript's placing of integer-like keys first is not modelled.
- Storage.GetNumber: only radix 10 is modelled.
- A failing `AsyncStorage.getItem` (the `catch` in `utilHandler`) is not modelled.
- JsStrings.ToLowerCase: only ASCII letters are folded, where JavaScript folds all of Unicode.
- Clocks and randomness are inputs: the greeting takes the hour, the minute and the draw `roll`; dates are their integer fields.
- Parsing of date texts (`new Date(...)`, `toDateString`, `convertUTCDateToLocalDate`) is not modelled. The contribution count takes the day texts, and the day press takes the texts it shows and sends.
- Personal.IsoShape: stated for four-digit years and in-range fields, and offsets under 100 hours.
- Map queries (`getCenter`, `queryRenderedFeaturesAtPoint`) are not modelled: the resolved feature list is an input, and so is the answer to the confirmation dialog. The optional `getLocationCallback` prop is not modelled, nor is the highlight style (`setBorderOpacity`) beyond its read of `district.Code`, which throws on a nullish selection.
- `DeleteLoggedInAccount` does not exist in the auth module. The model only counts its invocations and gives it no behaviour.
- WebView.HandleStateChangeW: an array-valued `url` opens nothing, since how `Linking.openURL` treats a non-string is outside the model.
- UI layout, styling, colours (only the legend colour is kept), `mapValue` and the graph opacity, and the screens not named above.
- Logging (`console.debug` and `console.error`) is not modelled.
