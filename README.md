# Progress graph, dashboard analytics and mood music: a Dafny model

This project models the three parts of the personal-growth web application that
hold real logic. The rest of the application is views and thin request
wrappers.

- **Progress graph** (`progress_graph.dfy`). This is the data pipeline behind the
  progress line chart. An optional date range selected in a range picker
  filters three series: objectives, projects and self-esteem scores. Both ends
  of the range are inclusive. Each item that passes the filter becomes a chart
  record: `{date, objectives: progress}`, `{date, projects: 1 or 0}` or
  `{date, selfEsteemScores: score}`. The three record lists are concatenated in
  that order and the result is sorted by date. The three `filter` memos are
  functions. The `data` memo is a method that pushes onto `combinedData` in
  three loops and then sorts. `Array.prototype.sort` is stable from the 2019
  edition of ECMA-262 on. It is modelled by a stable insertion sort on dates.
  `StableSortIsUnique` proves that any result ordered by date that keeps the
  order of equal-dated records is this one.
- **Dashboard analytics** (`dashboard_analytics.dfy`). The "highest productivity"
  and "highest self-esteem" days are two `reduce` folds. Each fold is seeded
  with element 0 and replaces the current best only on a strict `>`. The folds
  are modelled literally. They are proved equal to an independent definition
  of "index of the first maximum".
- **Mood music** (`spotify.dfy`). This part covers the `useSpotify` hook and the
  suggestions API route.
  - The hook is a class with the fields `auth`, `tracks`, `isLoading` and
    `error`. Its methods are the `fetchAuth` and `fetchTracks` transitions.
  - The route maps a mood to a playlist id. A missing or empty mood falls back
    to Peaceful.
  - The client builds the `Authorization` header as `tokenType`, one space,
    then `accessToken`. The route extracts one track per playlist item.

Dates are integers compared with `<=`. They stand for dayjs timestamps. Progress,
scores, productivity and self-esteem are integers. Each HTTP exchange is a
parameter: either a `Response` value (a body, or `Failed` for a rejected or
failed request) or a function from the request made to the response obtained.
The hook, the route and Spotify's playlist endpoint run no I/O of their own.

## Model

| member | source | states |
|---|---|---|
| ProgressGraph.FilterByPeriod | src/designSystem/ui/ProgressGraph/index.tsx:61-80 | With no period the series is returned unchanged. With a period, the result deletes items only and keeps their order (a subsequence). In that case it holds each item in range exactly as often as the input does and no item out of range. |
| ProgressGraph.KeepInPeriod | src/designSystem/ui/ProgressGraph/index.tsx:63-65 | The `filter` with `isBetween(..., '[]')` gives a subsequence of the input. It keeps, with the same multiplicity, exactly the items dated in `[start, end]`, both ends included. |
| ProgressGraph.ObjectiveKeptIffInPeriod | src/designSystem/ui/ProgressGraph/index.tsx:63-65 | An objective of the input survives the filter if and only if `start <= date <= end`. |
| ProgressGraph.ProjectKeptIffInPeriod | src/designSystem/ui/ProgressGraph/index.tsx:68-72 | A project of the input survives the filter if and only if `start <= date <= end`. |
| ProgressGraph.ScoreKeptIffInPeriod | src/designSystem/ui/ProgressGraph/index.tsx:75-79 | A self-esteem score of the input survives the filter if and only if `start <= date <= end`. |
| ProgressGraph.ObjectiveRecord | src/designSystem/ui/ProgressGraph/index.tsx:86 | The definition of an objective's record: its date, under the `objectives` key, with its `progress` as the value. `ChartDataRecords` states that every such record reaches the chart data, and conversely. |
| ProgressGraph.ProjectRecord | src/designSystem/ui/ProgressGraph/index.tsx:90 | A project's record carries its date, under the `projects` key. The value is 0 or 1, and it is 1 exactly when the project is completed. |
| ProgressGraph.ScoreRecord | src/designSystem/ui/ProgressGraph/index.tsx:94 | The definition of a score's record: its date, under the `selfEsteemScores` key, with its `score` as the value. `ChartDataRecords` states that every such record reaches the chart data, and conversely. |
| ProgressGraph.PushRecords | src/designSystem/ui/ProgressGraph/index.tsx:85-95 | One `forEach` of pushes appends exactly one record per item, in item order, after what `combinedData` already held. |
| ProgressGraph.ChartData | src/designSystem/ui/ProgressGraph/index.tsx:82-98 | The `data` memo's result is ordered by date and is a permutation of the three filtered series' records, concatenated. |
| ProgressGraph.BuildChartData | src/designSystem/ui/ProgressGraph/index.tsx:82-98 | The memo's loops and sort compute `ChartData`. The result is ordered by date and has one record per filtered item. |
| ProgressGraph.InsertByDateSorted | src/designSystem/ui/ProgressGraph/index.tsx:97 | Inserting a record into a date-ordered sequence keeps it ordered. It adds exactly that record, one element longer. |
| ProgressGraph.SortByDate | src/designSystem/ui/ProgressGraph/index.tsx:97 | The sort result is non-decreasing by date and a permutation of its input (the same multiset and the same length). |
| ProgressGraph.SortByDateIsStable | src/designSystem/ui/ProgressGraph/index.tsx:97 | For every date, the records carrying that date appear in the result in the same order as in the input. |
| ProgressGraph.StableSortIsUnique | src/designSystem/ui/ProgressGraph/index.tsx:97 | Two date-ordered sequences that agree on the ordered records of every date are equal. |
| ProgressGraph.SortByDateIsTheStableSort | src/designSystem/ui/ProgressGraph/index.tsx:97 | Any sequence ordered by date that keeps each date's records in input order is the modelled sort's result. So the model fixes the outcome of every stable sort with this comparator. |
| ProgressGraph.CombinedRecords | src/designSystem/ui/ProgressGraph/index.tsx:85-95 | Every filtered item's record is in `combinedData`. Every record there is the record of a filtered item of its own series. |
| ProgressGraph.CombinedSeriesOrdered | src/designSystem/ui/ProgressGraph/index.tsx:85-95 | Before sorting, all objective records precede all project records, which precede all score records. |
| ProgressGraph.ChartDataIsSortedPermutation | src/designSystem/ui/ProgressGraph/index.tsx:85-97 | The chart data is non-decreasing by date and a permutation of the concatenated records. Its length is the sum of the three filtered lengths. |
| ProgressGraph.ChartDataIsStable | src/designSystem/ui/ProgressGraph/index.tsx:85-97 | For every date, the chart records of that date keep their push order. |
| ProgressGraph.ChartDataTiesInSeriesOrder | src/designSystem/ui/ProgressGraph/index.tsx:85-97 | Among records with equal dates, objective records come first, then project records, then score records. |
| ProgressGraph.ChartDataRecords | src/designSystem/ui/ProgressGraph/index.tsx:85-95 | Each filtered objective's record carries `progress`. Each project's carries 1 when completed and 0 otherwise. Each score's carries `score`. All of them are in the chart data. Conversely, every chart record is the record of a filtered item of its series, and a project record's value is 0 or 1. |
| ProgressGraph.ChartDataObjectiveIffInPeriod | src/designSystem/ui/ProgressGraph/index.tsx:61-98 | With a period selected, an objective's record is in the chart data if and only if the objective's date is in the period, ends included. |
| ProgressGraph.ChartDataWithinPeriod | src/designSystem/ui/ProgressGraph/index.tsx:61-98 | With a period selected, every chart record is dated inside it. |
| ProgressGraph.ChartDataWithoutPeriod | src/designSystem/ui/ProgressGraph/index.tsx:61-98 | With no period selected, the chart data is the sorted records of all of the input items. |
| DashboardAnalytics.FirstMaxIndex | src/designSystem/ui/DashboardAnalytics/index.tsx:27 | This is the reference definition. For a non-empty list it gives an index whose key is the largest, with every earlier element strictly smaller. |
| DashboardAnalytics.Reduce | src/designSystem/ui/DashboardAnalytics/index.tsx:26-34 | The strict-`>` fold ends on its seed or on an element of the list. Its key is at least the seed's and at least every element's. `ReduceFindsFirstMax` says which element it is. |
| DashboardAnalytics.ReduceFindsFirstMax | src/designSystem/ui/DashboardAnalytics/index.tsx:26-29 | From any seed, the strict-`>` fold ends on the list's first maximum if that beats the seed. Otherwise it ends on the seed. |
| DashboardAnalytics.BestBy | src/designSystem/ui/DashboardAnalytics/index.tsx:26-34 | The fold seeded with element 0 is absent (`undefined`) exactly for the empty list. Otherwise it is the element at the first-maximum index. |
| DashboardAnalytics.MaxProductivityDay | src/designSystem/ui/DashboardAnalytics/index.tsx:26-29 | It is absent if and only if the list is empty. When present it is a member of the list, and no pattern has strictly greater productivity. Every element before it has strictly smaller productivity, so ties go to the earliest. A singleton yields its only element. |
| DashboardAnalytics.MaxSelfEsteemDay | src/designSystem/ui/DashboardAnalytics/index.tsx:31-34 | The same holds for `selfEsteem` over `selfEsteemTrends` alone: absent exactly when the list is empty, a member, maximal, earliest on ties, and the only element of a singleton. |
| Spotify.PlaylistFor | src/core/hooks/useSpotify.ts:165-171 | A playlist id exists exactly for a missing or empty mood, `Peaceful`, `Motivated` or `Happy`. `Motivated` and only it gets `37i9dQZF1DXdxcBWuJkbcy`. Every other id found is `37i9dQZF1DX3rxVfibe1L0`. |
| Spotify.ClientMoodPlaylists | src/core/hooks/useSpotify.ts:165-171 | Peaceful and Happy map to `37i9dQZF1DX3rxVfibe1L0`. Motivated maps to `37i9dQZF1DXdxcBWuJkbcy`. |
| Spotify.PlaylistTracksUrl | src/core/hooks/useSpotify.ts:175 | The URL is `https://api.spotify.com/v1/playlists/`, then the playlist id (the text `undefined` when there is none), then `/tracks`. The id can be read back from between that prefix and that suffix. |
| Spotify.ExtractTracks | src/core/hooks/useSpotify.ts:183 | There is one track per playlist item. Track `i` is item `i`'s track. |
| Spotify.SuggestionsRoute | src/core/hooks/useSpotify.ts:160-189 | The route succeeds exactly when Spotify's answer to the playlist URL (with the caller's `Authorization` forwarded) succeeds. On success it answers one track per playlist item, in order. |
| Spotify.ClientMoodsRequestARealPlaylist | src/core/hooks/useSpotify.ts:171-183 | For each mood the client sends, the route queries the URL of a real playlist id, never the `undefined` one. |
| Spotify.AuthorizationHeader | src/core/hooks/useSpotify.ts:52 | The header is `tokenType`, one space, then `accessToken`, and nothing else. |
| Spotify.AuthorizationHeaderRoundTrip | src/core/hooks/useSpotify.ts:52 | If the token type has no space, splitting the header at its first space gives back the token type and the access token. |
| Spotify.SpotifyHook.constructor | src/core/hooks/useSpotify.ts:25-28 | The initial state is `auth` null, `tracks` empty, `isLoading` false and `error` null. |
| Spotify.SpotifyHook.FetchAuth | src/core/hooks/useSpotify.ts:31-38 | On success `auth` is the response body. On failure `auth` is unchanged and `error` is `'Failed to authenticate with Spotify'`. Tracks and loading never change. |
| Spotify.SpotifyHook.FetchTracks | src/core/hooks/useSpotify.ts:43-62 | With no `auth` it sends nothing and changes nothing. Otherwise it sends the header and the mood. On success `tracks` is the response's tracks and `error` is null. On failure `tracks` is kept and `error` is `'Failed to fetch tracks'`. `isLoading` ends false either way, and the hook invariant is preserved. |
| Spotify.MountThenFetchTwice | src/core/hooks/useSpotify.ts:30-62 | After a failed credential exchange, later `fetchTracks` calls send nothing: tracks stay empty and the error is the authentication message. With a credential, every call sends `tokenType accessToken` and the mood, and loading ends off. The second call's answer decides the final state. If it fails, the error is the fetch message and the tracks are those of a successful first call, or empty. |

## Left out

- The credential route (src/core/hooks/useSpotify.ts:132-153) is not part of this model: the client-credentials exchange, the base64 encoding of `clientId:clientSecret` and the environment variables. The hook sees only its outcome, a `Response<SpotifyAuth>`.
- Spotify's playlist endpoint, axios and `NextResponse` are parameters. The hook's `server` and the route's `spotify` functions stand for them. No request is made.
- The upload hook (src/core/hooks/upload/index.tsx) is not part of this model. Its only logic turns any exception into `'Failed to upload file'`.
- `playTrack` (src/core/hooks/useSpotify.ts:64-67) is not modelled. It only plays audio in the browser.
- The rendering halves of the progress graph and the dashboard are not modelled: the `aspect` line selection, the lists and `format('YYYY-MM-DD')`. On an empty list the dashboard's fold result is `undefined`, and the render dereferences it at src/designSystem/ui/DashboardAnalytics/index.tsx:54-55 and 73-74. The model returns `None` there. The exception that the render then throws is not modelled.
- The model does not parse dates or model the dayjs library. A date is an integer, and the comparator `dayjs(a.date).diff(dayjs(b.date))` is the integer order. Date strings that dayjs cannot parse (NaN differences) are not modelled.
- Inverted ranges are not modelled. The dayjs `isBetween` plugin is not part of this model, and the range picker yields `start <= end`. For `start > end` the model keeps nothing.
- No shown file registers the `isBetween` plugin (`dayjs.extend`). The model assumes it is registered.
- `moodToPlaylist` is a JavaScript object. Object-prototype keys such as `constructor` are not modelled: for them the model says "no playlist".
- React scheduling is not modelled: `useEffect`, `useState` batching, and each render's closures capturing that render's `auth`. `fetchTracks` is one atomic transition over the hook's current state.
- `expiresIn` is kept in `SpotifyAuth` but never read, as in the code. No expiry or refresh exists in the code or in the model.
- The hook stores one of two fixed error strings, and so does the model.
- SpotifyHook.FetchAuth: the model trusts the declared `SpotifyAuth` shape (src/core/hooks/useSpotify.ts:8-12, 34), with `accessToken` and `tokenType`. The credential route at src/core/hooks/useSpotify.ts:149 forwards Spotify's token JSON unchanged, and Spotify documents that JSON with the keys `access_token` and `token_type`. If so, the header at src/core/hooks/useSpotify.ts:52 reads `undefined undefined`. The model does not represent this key mismatch, because Spotify's JSON format is not part of this model.
- A track's album images and artists are not modelled (`Track` keeps `id`, `name` and `previewUrl`). They are only rendered.
- Content search and aggregation and the like, comment and share mutations are not modelled. None of the three modelled files contains them; they are on the Discover page. No shown file has a save mutation.
