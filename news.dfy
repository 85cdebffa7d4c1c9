/** The feed view's logic: grouping articles by calendar day, the day
    headers, and the guards around the store's operations. Rendering, the
    scroll observer and the five-minute refresh timer are not modelled. */
module News {
  import opened Wrappers
  import opened Types
  import opened Sorting
  import opened NewsSlice

  const MsPerDay: int := 86400000

  /** The calendar day a local timestamp falls on; `toDateString` keys days
      this way. */
  function Day(ts: int): int {
    ts / MsPerDay
  }

  /** Later timestamps never fall on earlier days. */
  lemma DayMonotone(a: int, b: int)
    requires a <= b
    ensures Day(a) <= Day(b)
  {
  }

  function PublishedDay(a: Article): int {
    Day(a.publishedDate)
  }

  /** The sort key of `Object.keys(grouped).sort(...)`: the day itself. */
  function DayKey(day: int): int {
    day
  }

  // ---------------------------------------------------------------- headers

  /** A group's heading; `LongDate` stands for the locale's long form
      (weekday, month, day, year) of that day. */
  datatype DateHeader = Today | Yesterday | LongDate(day: int)

  /** The day a heading stands for, given today's day. */
  function HeaderDay(h: DateHeader, today: int): int {
    match h
    case Today => today
    case Yesterday => today - 1
    case LongDate(d) => d
  }

  /** "Today", then "Yesterday", then the long form, tested in that order:
      the three are exclusive and the heading always names its own day. */
  function FormatDateHeader(day: int, today: int): (h: DateHeader)
    ensures h == Today <==> day == today
    ensures h == Yesterday <==> day == today - 1
    ensures h.LongDate? <==> day != today && day != today - 1
    ensures HeaderDay(h, today) == day
  {
    if day == today then Today
    else if day == today - 1 then Yesterday
    else LongDate(day)
  }

  // ---------------------------------------------------------------- grouping

  datatype Group = Group(date: int, displayDate: DateHeader, articles: seq<Article>)

  function Last<T>(s: seq<T>): T
    requires s != []
  {
    s[|s| - 1]
  }

  /** The articles of all groups, group after group. */
  function Flatten(groups: seq<Group>): seq<Article>
    decreases |groups|
  {
    if groups == [] then [] else Flatten(groups[..|groups| - 1]) + Last(groups).articles
  }

  /** Adds one article after the runs built so far: to the last run when it
      is of the same day, otherwise as a new run of its own. */
  function AddArticle(runs: seq<Group>, a: Article, today: int): seq<Group> {
    var day := PublishedDay(a);
    if runs != [] && Last(runs).date == day then
      runs[..|runs| - 1] + [Last(runs).(articles := Last(runs).articles + [a])]
    else
      runs + [Group(day, FormatDateHeader(day, today), [a])]
  }

  /** The maximal runs of consecutive articles that fall on one day, each
      labelled with its day and heading. */
  function Runs(s: seq<Article>, today: int): seq<Group>
    decreases |s|
  {
    if s == [] then [] else AddArticle(Runs(s[..|s| - 1], today), Last(s), today)
  }

  /** What `groupNewsByDate` computes: the runs of the newest-first list. */
  function GroupedView(articles: seq<Article>, today: int): seq<Group> {
    Runs(SortDescending(articles, PublishedAt), today)
  }

  /** Every group is non-empty, holds only articles of its own day and
      carries that day's heading. */
  ghost predicate WellFormed(groups: seq<Group>, today: int) {
    forall i :: 0 <= i < |groups| ==>
      && groups[i].articles != []
      && groups[i].displayDate == FormatDateHeader(groups[i].date, today)
      && (forall x :: x in groups[i].articles ==> PublishedDay(x) == groups[i].date)
  }

  /** Days strictly decrease from group to group and each group is newest-first. */
  ghost predicate Ordered(groups: seq<Group>) {
    && (forall i, j :: 0 <= i < j < |groups| ==> groups[i].date > groups[j].date)
    && (forall i :: 0 <= i < |groups| ==> Descending(groups[i].articles, PublishedAt))
  }

  lemma AddArticleFlatten(runs: seq<Group>, a: Article, today: int)
    ensures Flatten(AddArticle(runs, a, today)) == Flatten(runs) + [a]
    ensures var r := AddArticle(runs, a, today); r != [] && Last(r).date == PublishedDay(a)
  {
    var r := AddArticle(runs, a, today);
    if runs != [] && Last(runs).date == PublishedDay(a) {
      var m := |runs| - 1;
      assert r[..|r| - 1] == runs[..m];
    } else {
      assert r[..|r| - 1] == runs;
    }
  }

  lemma AddArticleWellFormed(runs: seq<Group>, a: Article, today: int)
    requires WellFormed(runs, today)
    ensures WellFormed(AddArticle(runs, a, today), today)
  {
    var r := AddArticle(runs, a, today);
    if runs != [] && Last(runs).date == PublishedDay(a) {
      var m := |runs| - 1;
      forall i | 0 <= i < |r|
        ensures r[i].articles != [] && r[i].displayDate == FormatDateHeader(r[i].date, today)
        ensures forall x :: x in r[i].articles ==> PublishedDay(x) == r[i].date
      {
        if i < m { assert r[i] == runs[i]; }
      }
    } else {
      forall i | 0 <= i < |r|
        ensures r[i].articles != [] && r[i].displayDate == FormatDateHeader(r[i].date, today)
        ensures forall x :: x in r[i].articles ==> PublishedDay(x) == r[i].date
      {
        if i < |runs| { assert r[i] == runs[i]; }
      }
    }
  }

  /** Appending an article no newer than any before it keeps the runs ordered. */
  lemma AddArticleOrdered(runs: seq<Group>, a: Article, today: int)
    requires Ordered(runs) && WellFormed(runs, today)
    requires runs != [] ==> forall x :: x in Last(runs).articles ==> x.publishedDate >= a.publishedDate
    ensures Ordered(AddArticle(runs, a, today))
  {
    var r := AddArticle(runs, a, today);
    var day := PublishedDay(a);
    if runs != [] && Last(runs).date == day {
      var m := |runs| - 1;
      var grown := runs[m].articles + [a];
      assert Descending(grown, PublishedAt) by {
        forall i, j | 0 <= i < j < |grown| ensures PublishedAt(grown[i]) >= PublishedAt(grown[j]) {
          if j == |grown| - 1 {
            assert grown[i] in runs[m].articles;
          } else {
            assert grown[i] == runs[m].articles[i] && grown[j] == runs[m].articles[j];
          }
        }
      }
      forall i | 0 <= i < |r| ensures Descending(r[i].articles, PublishedAt) {
        if i < m { assert r[i] == runs[i]; }
      }
      forall i, j | 0 <= i < j < |r| ensures r[i].date > r[j].date {
        assert r[i].date == runs[i].date && r[j].date == runs[j].date;
      }
    } else {
      if runs != [] {
        var y := Last(runs).articles[0];
        assert y in Last(runs).articles;
        DayMonotone(a.publishedDate, y.publishedDate);
        assert Last(runs).date > day;
      }
      forall i | 0 <= i < |r| ensures Descending(r[i].articles, PublishedAt) {
        if i < |runs| { assert r[i] == runs[i]; }
      }
      forall i, j | 0 <= i < j < |r| ensures r[i].date > r[j].date {
        if j < |runs| {
          assert r[i] == runs[i] && r[j] == runs[j];
        } else {
          assert r[i] == runs[i];
          assert runs[i].date >= Last(runs).date;
        }
      }
    }
  }

  /** An article of some group is in the flattened list. */
  lemma {:induction false} InFlatten(groups: seq<Group>, i: nat, x: Article)
    requires i < |groups| && x in groups[i].articles
    ensures x in Flatten(groups)
    decreases |groups|
  {
    if i < |groups| - 1 {
      assert groups[..|groups| - 1][i] == groups[i];
      InFlatten(groups[..|groups| - 1], i, x);
    }
  }

  /** Runs cover the list exactly, in order, and are well formed. */
  lemma {:induction false} RunsShape(s: seq<Article>, today: int)
    ensures Flatten(Runs(s, today)) == s
    ensures WellFormed(Runs(s, today), today)
    ensures s != [] ==> Runs(s, today) != [] && Last(Runs(s, today)).date == PublishedDay(Last(s))
    decreases |s|
  {
    if s != [] {
      var p := s[..|s| - 1];
      assert s == p + [Last(s)];
      RunsShape(p, today);
      AddArticleFlatten(Runs(p, today), Last(s), today);
      AddArticleWellFormed(Runs(p, today), Last(s), today);
    }
  }

  /** On a newest-first list the runs have strictly decreasing days (so no
      day has two groups) and each run is newest-first. */
  lemma {:induction false} RunsOrdered(s: seq<Article>, today: int)
    requires Descending(s, PublishedAt)
    ensures Ordered(Runs(s, today))
    decreases |s|
  {
    if s != [] {
      var p := s[..|s| - 1];
      var a := Last(s);
      assert s == p + [a];
      assert Descending(p, PublishedAt);
      RunsOrdered(p, today);
      RunsShape(p, today);
      var prev := Runs(p, today);
      if prev != [] {
        forall x | x in Last(prev).articles ensures x.publishedDate >= a.publishedDate {
          InFlatten(prev, |prev| - 1, x);
          var k :| 0 <= k < |p| && p[k] == x;
          assert s[k] == x && s[|s| - 1] == a;
        }
      }
      AddArticleOrdered(prev, a, today);
    }
  }

  /** The grouped view is a partition of the input: its groups, read in
      order, are the whole list newest-first, every article in exactly one
      group; each group is non-empty, newest-first, holds only its own day
      and is headed for that day; and days strictly decrease from group to
      group. */
  lemma GroupedViewIsPartition(articles: seq<Article>, today: int)
    ensures var g := GroupedView(articles, today);
      && Flatten(g) == SortDescending(articles, PublishedAt)
      && multiset(Flatten(g)) == multiset(articles)
      && |Flatten(g)| == |articles|
      && (forall i :: 0 <= i < |g| ==> g[i].articles != [] && Descending(g[i].articles, PublishedAt))
      && (forall i :: 0 <= i < |g| ==> g[i].displayDate == FormatDateHeader(g[i].date, today))
      && (forall i, x :: 0 <= i < |g| && x in g[i].articles ==> PublishedDay(x) == g[i].date)
      && (forall i, j :: 0 <= i < j < |g| ==> g[i].date > g[j].date)
      && (forall i, j, x :: 0 <= i < |g| && 0 <= j < |g| && x in g[i].articles && x in g[j].articles ==> i == j)
  {
    var sorted := SortDescending(articles, PublishedAt);
    var g := GroupedView(articles, today);
    RunsShape(sorted, today);
    RunsOrdered(sorted, today);
    assert |multiset(sorted)| == |multiset(articles)|;
    forall i, j, x | 0 <= i < |g| && 0 <= j < |g| && x in g[i].articles && x in g[j].articles
      ensures i == j
    {
      assert PublishedDay(x) == g[i].date && PublishedDay(x) == g[j].date;
    }
  }

  /** Grouping the flattened groups again gives the same groups. */
  lemma GroupedViewIdempotent(articles: seq<Article>, today: int)
    ensures GroupedView(Flatten(GroupedView(articles, today)), today) == GroupedView(articles, today)
  {
    GroupedViewIsPartition(articles, today);
    SortDescendingIdempotent(articles, PublishedAt);
  }

  /** `groupNewsByDate`: sort newest-first, collect each day's articles under
      its key in insertion order, then list the keys newest day first, each
      with its heading for the day `now` falls on. */
  method GroupNewsByDate(articles: seq<Article>, now: int) returns (groups: seq<Group>)
    ensures groups == GroupedView(articles, Day(now))
    ensures multiset(Flatten(groups)) == multiset(articles)
    ensures forall i :: 0 <= i < |groups| ==> groups[i].articles != [] && Descending(groups[i].articles, PublishedAt)
    ensures forall i, x :: 0 <= i < |groups| && x in groups[i].articles ==> PublishedDay(x) == groups[i].date
    ensures forall i, j :: 0 <= i < j < |groups| ==> groups[i].date > groups[j].date
    ensures forall i :: 0 <= i < |groups| ==> groups[i].displayDate == FormatDateHeader(groups[i].date, Day(now))
  {
    var today := Day(now);
    var sorted := SortDescending(articles, PublishedAt);
    var grouped, keys := CollectByDay(sorted, today);
    CollectedKeysGiveRuns(sorted, today, keys, grouped);
    keys := SortDescending(keys, DayKey);
    groups := ToGroups(keys, grouped, today);
    GroupedViewIsPartition(articles, today);
  }

  /** The final `.map`: each key with its heading and its articles. */
  function ToGroups(keys: seq<int>, grouped: map<int, seq<Article>>, today: int): (groups: seq<Group>)
    requires forall j :: 0 <= j < |keys| ==> keys[j] in grouped
    ensures |groups| == |keys|
    ensures forall j :: 0 <= j < |keys| ==>
              && groups[j].date == keys[j]
              && groups[j].displayDate == FormatDateHeader(keys[j], today)
              && groups[j].articles == grouped[keys[j]]
  {
    seq(|keys|, j requires 0 <= j < |keys| => Group(keys[j], FormatDateHeader(keys[j], today), grouped[keys[j]]))
  }

  /** Once every article is collected, the recorded keys are already newest
      day first, so sorting them changes nothing, and mapping them gives
      exactly the runs. */
  lemma CollectedKeysGiveRuns(sorted: seq<Article>, today: int, keys: seq<int>, grouped: map<int, seq<Article>>)
    requires Descending(sorted, PublishedAt)
    requires Mirrors(keys, grouped, Runs(sorted, today))
    ensures forall j :: 0 <= j < |keys| ==> keys[j] in grouped
    ensures SortDescending(keys, DayKey) == keys
    ensures ToGroups(keys, grouped, today) == Runs(sorted, today)
  {
    var runs := Runs(sorted, today);
    assert Descending(keys, DayKey) by {
      RunsOrdered(sorted, today);
      assert forall i, j :: 0 <= i < j < |runs| ==> runs[i].date > runs[j].date;
    }
    SortDescendingOfDescending(keys, DayKey);
    assert forall j :: 0 <= j < |runs| ==> runs[j].displayDate == FormatDateHeader(runs[j].date, today) by {
      RunsShape(sorted, today);
    }
    var groups := ToGroups(keys, grouped, today);
    forall j | 0 <= j < |keys| ensures groups[j] == runs[j] {
      assert groups[j] == Group(keys[j], FormatDateHeader(keys[j], today), grouped[keys[j]]);
    }
  }

  /** `keys` lists the days of `runs` in order, and `grouped` maps each of
      them, and nothing else, to its run's articles. */
  ghost predicate Mirrors(keys: seq<int>, grouped: map<int, seq<Article>>, runs: seq<Group>) {
    && |keys| == |runs|
    && (forall j :: 0 <= j < |keys| ==> keys[j] == runs[j].date)
    && (forall j :: 0 <= j < |keys| ==> keys[j] in grouped && grouped[keys[j]] == runs[j].articles)
    && (forall k :: k in grouped ==> k in keys)
  }

  /** One pass of the `forEach` body keeps the dictionary and its key order in
      step with the runs. */
  lemma MirrorsStep(keys: seq<int>, grouped: map<int, seq<Article>>, runs: seq<Group>, a: Article, today: int)
    requires Mirrors(keys, grouped, runs)
    requires forall j :: 0 <= j < |runs| && runs[j].date == PublishedDay(a) ==> j == |runs| - 1
    ensures var key := PublishedDay(a);
      var keys' := if key in grouped then keys else keys + [key];
      var base := if key in grouped then grouped else grouped[key := []];
      Mirrors(keys', base[key := base[key] + [a]], AddArticle(runs, a, today))
  {
    var key := PublishedDay(a);
    var r := AddArticle(runs, a, today);
    if key in grouped {
      var j :| 0 <= j < |keys| && keys[j] == key;
      assert j == |runs| - 1;
      var g := grouped[key := grouped[key] + [a]];
      forall i | 0 <= i < |keys| ensures keys[i] in g && g[keys[i]] == r[i].articles {
        if i < j { assert r[i] == runs[i]; }
      }
      forall i | 0 <= i < |keys| ensures keys[i] == r[i].date {
        if i < j { assert r[i] == runs[i]; }
      }
    } else {
      assert runs != [] ==> Last(runs).date != key;
      var keys' := keys + [key];
      var g := grouped[key := [a]];
      forall i | 0 <= i < |keys'| ensures keys'[i] == r[i].date && keys'[i] in g && g[keys'[i]] == r[i].articles {
        if i < |keys| { assert r[i] == runs[i]; assert keys'[i] != key; }
      }
    }
  }

  /** The `forEach` of `groupNewsByDate` over the newest-first list: each
      article is pushed onto its day's entry, an entry being created (and its
      key recorded, as `Object.keys` will list it) on the day's first article. */
  method CollectByDay(sorted: seq<Article>, today: int) returns (grouped: map<int, seq<Article>>, keys: seq<int>)
    requires Descending(sorted, PublishedAt)
    ensures Mirrors(keys, grouped, Runs(sorted, today))
  {
    grouped, keys := map[], [];
    var i := 0;
    while i < |sorted|
      invariant 0 <= i <= |sorted|
      invariant Mirrors(keys, grouped, Runs(sorted[..i], today))
    {
      ghost var runs := Runs(sorted[..i], today);
      var a := sorted[i];
      var key := PublishedDay(a);
      assert sorted[..i + 1][..i] == sorted[..i];
      assert Runs(sorted[..i + 1], today) == AddArticle(runs, a, today);
      KeyIsNewOrLast(sorted, i, today, runs);
      MirrorsStep(keys, grouped, runs, a, today);
      if key !in grouped {
        grouped := grouped[key := []];
        keys := keys + [key];
      }
      grouped := grouped[key := grouped[key] + [a]];
      i := i + 1;
    }
    assert sorted[..i] == sorted;
  }

  /** In the newest-first list, the day of the next article is either the
      day of the last run so far or a day no earlier run has. */
  lemma KeyIsNewOrLast(sorted: seq<Article>, i: nat, today: int, runs: seq<Group>)
    requires Descending(sorted, PublishedAt) && i < |sorted|
    requires runs == Runs(sorted[..i], today)
    ensures forall j :: 0 <= j < |runs| && runs[j].date == PublishedDay(sorted[i]) ==> j == |runs| - 1
  {
    if i > 0 {
      assert Descending(sorted[..i], PublishedAt);
      RunsShape(sorted[..i], today);
      RunsOrdered(sorted[..i], today);
      assert Last(sorted[..i]) == sorted[i - 1];
      DayMonotone(sorted[i].publishedDate, sorted[i - 1].publishedDate);
    }
  }

  // ---------------------------------------------------------------- guards

  /** `handleLoadMore` dispatches "load more" only when none is in flight
      and sections remain. */
  predicate ShouldLoadMore(loadingMore: bool, hasMoreSections: bool) {
    !loadingMore && hasMoreSections
  }

  /** `loadInitialData` dispatches the initial load only when the list is empty. */
  predicate ShouldLoadInitialData(articles: seq<Article>) {
    |articles| == 0
  }

  /** A "load more" that passes the guard is never the exhausted-list
      rejection: it requests the next section, and any rejection it ends in
      comes from the network. */
  lemma GuardedLoadMoreRequestsNextSection(s: NewsState, reply: Reply<Option<seq<Article>>>)
    requires Valid(s) && ShouldLoadMore(s.loadingMore, s.hasMoreSections)
    ensures DecideFetchMore(s.currentSectionIndex) == Success(s.currentSectionIndex + 1)
    ensures reply.Response? ==> LoadMoreRound(s, reply).error != Some(NoMoreSectionsMessage)
  {
  }

  /** Retrying clears the error and then runs the initial load; since the
      initial load's pending case clears the error too, a retry ends exactly
      as a plain initial load would. */
  lemma RetryIsInitialLoad(s: NewsState, reply: Reply<Option<seq<Doc>>>, now: int)
    ensures FetchNewsRound(Reduce(s, Action.ClearError), reply, now) == FetchNewsRound(s, reply, now)
  {
  }

  // ---------------------------------------------------------------- handlers

  /** `handleLoadMore`. */
  method HandleLoadMore(store: NewsStore, reply: Reply<Option<seq<Article>>>)
    modifies store
    ensures if ShouldLoadMore(old(store.loadingMore), old(store.hasMoreSections))
            then store.State() == LoadMoreRound(old(store.State()), reply)
            else store.State() == old(store.State())
  {
    if ShouldLoadMore(store.loadingMore, store.hasMoreSections) {
      store.DispatchFetchMoreNews(reply);
    }
  }

  /** `loadInitialData`: the result is whether the initial load ran, which
      is what enables infinite scrolling. */
  method LoadInitialData(store: NewsStore, reply: Reply<Option<seq<Doc>>>, now: int)
    returns (initialLoadComplete: bool)
    modifies store
    ensures initialLoadComplete == ShouldLoadInitialData(old(store.articles))
    ensures if initialLoadComplete
            then store.State() == FetchNewsRound(old(store.State()), reply, now)
            else store.State() == old(store.State())
  {
    initialLoadComplete := false;
    if ShouldLoadInitialData(store.articles) {
      store.DispatchFetchNews(reply, now);
      initialLoadComplete := true;
    }
  }

  /** `handleRetry`: clear the error, then run the initial load. */
  method HandleRetry(store: NewsStore, reply: Reply<Option<seq<Doc>>>, now: int)
    modifies store
    ensures store.State() == FetchNewsRound(Reduce(old(store.State()), Action.ClearError), reply, now)
    ensures store.State() == FetchNewsRound(old(store.State()), reply, now)
  {
    store.ClearError();
    store.DispatchFetchNews(reply, now);
    RetryIsInitialLoad(old(store.State()), reply, now);
  }
}
