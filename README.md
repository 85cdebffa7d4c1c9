# News feed store and view, modelled in Dafny

This project models the core of a single-page news reader that loads
New York Times stories. It has two parts:

- **The feed store** (`src/store/newsSlice.ts`). This is a Redux slice with seven
  state fields: the article list, two loading flags, an error banner, a cursor
  into a fixed list of fourteen top-stories sections, a "has more sections" flag
  and the time of the last fetch. It has three asynchronous requests:
  - an initial load from the article-search endpoint;
  - "load more", which walks the section list one section at a time;
  - a periodic refresh of the home section, with a 30-second cool-down.

  It also has the reducer cases that apply their pending, fulfilled and rejected
  outcomes, and `clearError`.
- **The feed view** (`src/components/News.tsx`). It groups articles by
  calendar day under "Today", "Yesterday" or a long date heading. It also has the
  guards that decide when to start the initial load and when to load more, and
  the retry handler.

How the model is built:

- **The reducer** is a pure function `NewsSlice.Reduce` over the state record.
- **The class `NewsSlice.NewsStore`** holds the same seven fields. It has one
  method per reducer case, and each method is proved to leave the store in the
  state `Reduce` gives.
- **Each request** is a pure function of three things: the state it reads, the
  clock reading it takes, and the network's answer. The answer is a `Reply`: a
  thrown error, or a response with its status and the part of its JSON body the
  request uses.
- **The `dispatch` of a request** runs three steps in turn: pending, the request,
  then fulfilled or rejected. It is modelled twice: as the functions
  `FetchNewsRound`, `LoadMoreRound` and `RefreshRound`, and as the dispatch
  methods of `NewsStore`.
- **`groupNewsByDate`** is a method with the same `forEach` loop as `groupNewsByDate`. The loop collects
  articles into a map keyed by day and records the keys in insertion order. The
  method is proved equal to a reference definition: the runs of same-day
  articles in the newest-first list.

How time, dates and sorting are modelled:

- Timestamps are integers, in milliseconds of local time.
- A calendar day is `timestamp / 86400000`.
- `Array.prototype.sort` with a `b - a` comparator is modelled as a stable
  descending insertion sort (`Sorting.SortDescending`).

## Model

| member | source | states |
|---|---|---|
| Sorting.SortDescending | src/components/News.tsx:51-53 | the result is a permutation of the input (same multiset) and is in descending key order |
| Sorting.SortDescendingOfDescending | src/components/News.tsx:68-69 | sorting a list that is already in descending order returns it unchanged, so sorting the day keys, which were recorded newest first, changes nothing |
| Sorting.SortDescendingIdempotent | src/components/News.tsx:51-53 | sorting twice is the same as sorting once |
| NewsSlice.InitialStateValid | src/store/newsSlice.ts:25-33 | the initial state satisfies the cursor invariant: the cursor is a valid section index, and "has more" holds exactly when the cursor is short of the last section |
| NewsSlice.RejectionMessage | src/store/newsSlice.ts:83-86 | a request rejects with the error's message when it is non-empty, and with the fallback text otherwise; so a rejection value is never empty |
| NewsSlice.NatToString | src/store/newsSlice.ts:55 | the status in a generic HTTP error message is printed as a non-empty string of decimal digits with no leading zero: only 0 starts with "0", and then it is the single digit "0" |
| NewsSlice.DigitsValueOfNatToString | src/store/newsSlice.ts:55 | reading the printed status back as a decimal number gives the status |
| NewsSlice.HttpErrorMessage | src/store/newsSlice.ts:55 | the generic error message is the prefix "HTTP error! status: " followed by the status in decimal, with no leading zero (0 prints as the single digit "0") |
| NewsSlice.HttpErrorMessageInjective | src/store/newsSlice.ts:55 | two generic error messages are equal only when their statuses are equal |
| NewsSlice.FetchNewsStatusError | src/store/newsSlice.ts:47-56 | a failed status of the initial load maps to the access-forbidden message for 403, to "Invalid API key" for 401, and to the generic message otherwise |
| NewsSlice.FetchNewsStatusErrorInjective | src/store/newsSlice.ts:47-56 | the initial load's error message identifies the status: distinct statuses give distinct messages |
| NewsSlice.FetchMoreStatusError | src/store/newsSlice.ts:110-115 | a failed status of "load more" maps to the rate-limit message for 429, and to the generic message otherwise |
| NewsSlice.OrElse | src/store/newsSlice.ts:64-65 | an absent or empty string falls back to the default; a non-empty string is kept |
| NewsSlice.MediaUrl | src/store/newsSlice.ts:69-71 | an image URL always starts with "http": one that already does is kept, any other (including an absent one) is put after the image host |
| NewsSlice.MapDoc | src/store/newsSlice.ts:63-80 | a search result becomes an article whose title is the headline when that is non-empty and "No title" otherwise; the summary is the abstract, else the lead paragraph, else empty (absent and empty both skipped); the URL and date are copied; the images are just the first raw image, mapped, when there is one, and every kept image URL is absolute |
| NewsSlice.MapDocs | src/store/newsSlice.ts:61-62 | the first `min(n, 20)` search results, each mapped in place, in their original order |
| NewsSlice.FetchNews | src/store/newsSlice.ts:38-88 | the initial load succeeds exactly on an ok response, with the mapped first page of at most 20 articles (a missing `docs` counts as empty); a non-ok response rejects with the classified status message; a thrown error rejects with its message or the fallback; a rejection is never empty |
| NewsSlice.DecideFetchMore | src/store/newsSlice.ts:95-101 | "load more" rejects with "No more sections available" exactly when the next index would be past the last section; otherwise it targets the cursor plus one |
| NewsSlice.FetchMoreNews | src/store/newsSlice.ts:91-128 | at the last section the result is that rejection, whatever the network would answer; success happens exactly when a section remains and the response is ok, with the section's stories (a missing `results` counts as empty) and the next index; a non-ok response rejects with the classified status message; a thrown error rejects with its message, or "Failed to fetch more news" when that is empty |
| NewsSlice.NewArticles | src/store/newsSlice.ts:212-214 | an article is kept exactly when it is among the incoming stories and no old article has its URL, and then with as many copies as it has there (none otherwise); the kept articles are a subsequence of the incoming stories, in their original order |
| NewsSlice.AppendNew | src/store/newsSlice.ts:212-216 | the merged list starts with the old list unchanged; its tail is a subsequence of the incoming stories, made of exactly those whose URL was unseen, each with all its incoming copies |
| NewsSlice.NewArticlesUrlsDistinct | src/store/newsSlice.ts:212-214 | when the incoming URLs are distinct, the kept ones are too |
| NewsSlice.AppendNewUrlsDistinct | src/store/newsSlice.ts:212-216 | the merge never creates a duplicate URL when the old list and the incoming stories each have distinct URLs |
| NewsSlice.AppendNewKeepsDuplicatesWithinIncoming | src/store/newsSlice.ts:212-216 | the filter only compares against the old list, so two incoming stories with the same URL both survive the merge |
| NewsSlice.Take | src/store/newsSlice.ts:161 | `slice(0, n)`: the first `min(len, n)` elements |
| NewsSlice.RefreshNews | src/store/newsSlice.ts:131-174 | less than 30 s after the last fetch, refresh returns the current list; a 429 also returns the current list; it rejects exactly on a thrown error or on a non-ok status other than 429; an ok response gives at most 20 stories, a permutation of the first 20 results, newest first |
| NewsSlice.Reduce | src/store/newsSlice.ts:176-241 | every case preserves the cursor invariant; only fulfilled cases touch the list, the cursor and the fetch time; "load more" only ever extends the list; refresh cases never touch the error, the flags or the cursor; only a rejection sets the error (to its message), and only a pending case or `clearError` clears it |
| NewsSlice.FetchNewsRoundOutcome | src/store/newsSlice.ts:187-201 | after an initial load, `loading` is false. On an ok response, the list is the mapped first page, with no error, the cursor at 0, "has more" set and the fetch time stamped. Otherwise the list, the cursor and the fetch time are unchanged and a non-empty, classified error is shown |
| NewsSlice.LoadMoreRoundOutcome | src/store/newsSlice.ts:204-223 | one "load more" keeps the cursor invariant and ends with `loadingMore` false. With a section left and an ok response, the cursor advances by exactly one and the list becomes the merge. Otherwise only the error changes, and it is "No more sections available" when no section was left |
| NewsSlice.LoadMoreRoundsAdvanceCursor | src/store/newsSlice.ts:208-219 | `n` successful "load more" calls move the cursor forward by `n` and keep the old list as a prefix; "has more" turns false exactly at the last section |
| NewsSlice.LoadMoreExhaustsSections | src/store/newsSlice.ts:96-101 | after an initial load, thirteen successful "load more" calls reach the last section with "has more" false; a fourteenth rejects with "No more sections available" and leaves the list as it is |
| NewsSlice.RefreshRoundOutcome | src/store/newsSlice.ts:226-239 | a refresh changes nothing but the list and the fetch time; it keeps the list while cooling down or when rate-limited; on an ok response it leaves at most 20 articles, newest first |
| NewsSlice.RefreshTwiceWithinCooldown | src/store/newsSlice.ts:139-141 | a second refresh less than 30 s after a fulfilled one leaves the list as the first left it, whatever the network would answer |
| NewsSlice.NewsStore.constructor | src/store/newsSlice.ts:25-33 | the store starts in the initial state |
| NewsSlice.NewsStore.ClearError | src/store/newsSlice.ts:180-182 | the new state is the reducer's `clearError` case applied to the old one |
| NewsSlice.NewsStore.FetchNewsPending | src/store/newsSlice.ts:187-190 | the new state is the reducer's initial-load pending case applied to the old one |
| NewsSlice.NewsStore.FetchNewsFulfilled | src/store/newsSlice.ts:191-197 | the new state is the reducer's initial-load fulfilled case applied to the old one |
| NewsSlice.NewsStore.FetchNewsRejected | src/store/newsSlice.ts:198-201 | the new state is the reducer's initial-load rejected case applied to the old one |
| NewsSlice.NewsStore.FetchMoreNewsPending | src/store/newsSlice.ts:204-207 | the new state is the reducer's "load more" pending case applied to the old one |
| NewsSlice.NewsStore.FetchMoreNewsFulfilled | src/store/newsSlice.ts:208-219 | the new state is the reducer's "load more" fulfilled case applied to the old one: the list grows in place by the unseen stories |
| NewsSlice.NewsStore.FetchMoreNewsRejected | src/store/newsSlice.ts:220-223 | the new state is the reducer's "load more" rejected case applied to the old one |
| NewsSlice.NewsStore.RefreshNewsPending | src/store/newsSlice.ts:226-228 | the refresh pending case leaves the state as it is |
| NewsSlice.NewsStore.RefreshNewsFulfilled | src/store/newsSlice.ts:229-235 | the new state is the reducer's refresh fulfilled case applied to the old one |
| NewsSlice.NewsStore.RefreshNewsRejected | src/store/newsSlice.ts:236-239 | the refresh rejected case leaves the state as it is |
| NewsSlice.NewsStore.DispatchFetchNews | src/store/newsSlice.ts:38-88 | dispatching the initial load leaves the store in the state `FetchNewsRound` gives |
| NewsSlice.NewsStore.DispatchFetchMoreNews | src/store/newsSlice.ts:91-128 | dispatching "load more", which reads the cursor from the store, leaves the store in the state `LoadMoreRound` gives |
| NewsSlice.NewsStore.DispatchRefreshNews | src/store/newsSlice.ts:131-174 | dispatching a refresh, which reads the list and the fetch time from the store, leaves the store in the state `RefreshRound` gives |
| News.FormatDateHeader | src/components/News.tsx:77-98 | the heading is "Today" exactly for today, "Yesterday" exactly for the day before, and the long date otherwise; the heading always names its own day |
| News.RunsShape | src/components/News.tsx:57-65 | the runs, read in order, give back the list exactly; each is non-empty, holds only articles of its own day and carries that day's heading |
| News.RunsOrdered | src/components/News.tsx:51-65 | on a newest-first list, the runs' days strictly decrease, so no day has two groups, and each run is newest first |
| News.GroupedViewIsPartition | src/components/News.tsx:49-75 | the grouped view is a partition of the input: its groups, read in order, are the whole list newest first, and every article is in exactly one group. Each group is non-empty, newest first, holds only its own day and has that day's heading. Days strictly decrease from group to group |
| News.GroupedViewIdempotent | src/components/News.tsx:49-75 | grouping the flattened groups again gives the same groups |
| News.GroupNewsByDate | src/components/News.tsx:49-75 | the imperative grouping (sort, collect by day key, sort the keys, map) returns exactly the reference grouping. So it loses and duplicates no article, its groups are non-empty and newest first, each holds one day under that day's heading, and the days strictly decrease |
| News.CollectByDay | src/components/News.tsx:55-65 | after the `forEach` over the newest-first list, the recorded keys are the runs' days in order, and each key's entry holds that run's articles |
| News.ToGroups | src/components/News.tsx:70-74 | the final `map` gives one group per key, in key order, with that day's heading and the articles collected under that key |
| News.CollectedKeysGiveRuns | src/components/News.tsx:68-74 | once collection is over, sorting the keys changes nothing, and mapping them gives exactly the runs |
| News.GuardedLoadMoreRequestsNextSection | src/components/News.tsx:110-114 | a "load more" that passes the guard (none in flight and sections left) requests the next section; once the network has answered, it never ends in the "No more sections available" rejection |
| News.RetryIsInitialLoad | src/components/News.tsx:149-152 | clearing the error before the initial load changes nothing: a retry ends exactly as a plain initial load would |
| News.HandleLoadMore | src/components/News.tsx:110-114 | "load more" is dispatched only when none is in flight and sections remain; otherwise the store is unchanged |
| News.LoadInitialData | src/components/News.tsx:22-27 | the initial load runs, and infinite scrolling is enabled, exactly when the list is empty; otherwise the store is unchanged |
| News.HandleRetry | src/components/News.tsx:149-152 | a retry leaves the store as `clearError` followed by the initial load would, which is the same as the initial load alone |

## Left out

- The network, `response.json()`, the one-second `delay` and `console` logging are not modelled. Each request receives the network's answer as a `Reply` argument.
- `Date.now()` is not modelled. Each clock reading is an integer argument: `now` for the reading a request takes, and the reducer's reading on fulfilment.
- The API key, the endpoint URLs and the section name inserted into the "load more" URL are not modelled, because they only build request strings.
- Parsing of date strings, time zones and daylight-saving changes are not modelled. Dates are milliseconds of local time, and a day is a fixed 86 400 000 ms. `toDateString` keys become these day numbers.
- The locale text of the long date heading (`toLocaleDateString`) and `formatTime` are not modelled. A long heading is `LongDate(day)`, because the text depends on the locale tables.
- Invalid dates (`NaN` timestamps) are not modelled. In the source they break both sort comparators.
- Concurrency is not modelled. In the source, requests can be in flight at the same time and settle in any order. The model runs each dispatch to completion, one at a time.
- Rendering (JSX), the `IntersectionObserver` that calls `handleLoadMore`, the React hooks and the five-minute `setInterval` refresh are not modelled. The guards and handlers are modelled; the wiring that calls them is not.
- The `updated_date` and `created_date` fields of an article are not modelled: nothing in the core reads them.
- `multimedia: null` is not modelled: an absent image list is the empty sequence.
- The `Array.isArray` check in refresh's fulfilled case is not modelled. Every fulfilled payload is a sequence, so the check is always true here.
- `src/components/Navbar.tsx`, `Footer.tsx`, `Sidebutton.tsx` and `src/App.tsx` are not part of this model.
- Sorting.SortDescending: stability is how the sort is built, but it is not stated in its contract.

Points where one might expect more than the code does; the model follows the code:

- One might expect the "load more" merge never to produce two articles with the same URL. The code filters the incoming stories only against the old list. The no-duplicates property holds only when the incoming stories have distinct URLs among themselves (`AppendNewUrlsDistinct`). `AppendNewKeepsDuplicatesWithinIncoming` shows a payload with a repeated URL keeping both copies.
- A refresh within the cool-down, or one answered with 429, still fulfils with the current list. The fulfilled case then stamps the fetch time again, so each such refresh pushes the cool-down window forward. The model does this as written (`RefreshRound`).
- Two refreshes less than 30 s apart leave the list untouched by the second only when the first was fulfilled. A rejected first refresh does not stamp the fetch time (`RefreshTwiceWithinCooldown`).
