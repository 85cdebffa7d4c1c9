/** The feed store: its state record, the three request operations (initial
    load, "load more" over the section list, periodic refresh) up to the point
    where the network answers, and every reducer case.

    The network, the one-second courtesy delay and the clock are not modelled:
    a request's answer arrives as a `Reply` argument and each clock reading as
    an integer argument. */
module NewsSlice {
  import opened Wrappers
  import opened Types
  import opened Sorting

  /** The top-stories sections that "load more" walks through, in order. */
  const NewsSections: seq<string> := [
    "home", "world", "us", "politics", "business", "technology",
    "science", "health", "sports", "arts", "fashion", "travel",
    "magazine", "realestate"
  ]

  /** A valid position in `NewsSections`. */
  type SectionIndex = i: nat | i < |NewsSections|

  /** At most this many search results become articles, and at most this many
      top stories replace the list on refresh. */
  const PageSize: nat := 20

  /** Minimum time, in milliseconds, between refreshes. */
  const RefreshCooldown: int := 30000

  // The verifier does not look inside long string literals, so the longer
  // messages are written as two pieces.
  const ForbiddenMessage: string := "Access forbidden - " + "API key may not have access to this endpoint"
  const InvalidKeyMessage: string := "Invalid API key"
  const NoMoreSectionsMessage: string := "No more sections available"
  const RateLimitMessage: string := "Rate limit exceeded. " + "Please wait before making another request."
  const FetchNewsFallback: string := "Failed to fetch news"
  const FetchMoreFallback: string := "Failed to fetch more news"
  const RefreshFallback: string := "Failed to refresh news"

  /** Host prefixed to image paths that are not already absolute. */
  const ImageHost: string := "https://static01.nyt.com/"

  // ---------------------------------------------------------------- state

  datatype NewsState = NewsState(
    articles: seq<Article>,
    loading: bool,
    loadingMore: bool,
    error: Option<string>,
    currentSectionIndex: nat,
    hasMoreSections: bool,
    lastFetchTime: int)

  const InitialState: NewsState := NewsState([], false, false, None, 0, true, 0)

  /** The section cursor is a valid index and "has more" says exactly whether
      it is short of the last section. */
  ghost predicate Valid(s: NewsState) {
    && s.currentSectionIndex < |NewsSections|
    && (s.hasMoreSections <==> s.currentSectionIndex < |NewsSections| - 1)
  }

  lemma InitialStateValid()
    ensures Valid(InitialState)
  {
  }

  // ---------------------------------------------------------------- network

  /** What one `fetch` (and the `response.json()` after it) produced: an
      exception with its message, or a response with its status and the part
      of the JSON body the operation reads (`None` when that part is absent). */
  datatype Reply<B> = Thrown(message: string) | Response(status: nat, body: B)

  /** `response.ok`. */
  predicate IsOk(status: nat) {
    200 <= status <= 299
  }

  /** The value a thunk rejects with: the error's message, or the fallback
      when the message is empty. */
  function RejectionMessage(message: string, fallback: string): (r: string)
    ensures r != [] <== fallback != []
    ensures message != [] ==> r == message
    ensures message == [] ==> r == fallback
  {
    if message != [] then message else fallback
  }

  // ---------------------------------------------------------------- decimal

  function DigitChar(d: nat): (c: char)
    requires d < 10
    ensures '0' <= c <= '9'
  {
    ('0' as int + d) as char
  }

  ghost predicate AllDigits(s: string) {
    forall i :: 0 <= i < |s| ==> '0' <= s[i] <= '9'
  }

  /** The decimal text of `n`, as a template literal prints a status code. */
  function NatToString(n: nat): (s: string)
    ensures s != [] && AllDigits(s)
    ensures s[0] == '0' ==> n == 0
    ensures |s| > 1 ==> s[0] != '0'
    decreases n
  {
    if n < 10 then [DigitChar(n)] else NatToString(n / 10) + [DigitChar(n % 10)]
  }

  /** The number a string of decimal digits denotes. */
  function DigitsValue(s: string): nat
    requires AllDigits(s)
    decreases |s|
  {
    if s == [] then 0 else DigitsValue(s[..|s| - 1]) * 10 + (s[|s| - 1] as int - '0' as int)
  }

  /** Reading back the decimal text of `n` gives `n`. */
  lemma {:induction false} DigitsValueOfNatToString(n: nat)
    ensures DigitsValue(NatToString(n)) == n
    decreases n
  {
    if n >= 10 {
      DigitsValueOfNatToString(n / 10);
      var s := NatToString(n);
      assert s[..|s| - 1] == NatToString(n / 10);
    }
  }

  // ---------------------------------------------------------------- status classification

  const HttpErrorPrefix: string := "HTTP error! status: "

  function HttpErrorMessage(status: nat): (m: string)
    ensures |HttpErrorPrefix| < |m| && m[..|HttpErrorPrefix|] == HttpErrorPrefix
    ensures AllDigits(m[|HttpErrorPrefix|..]) && DigitsValue(m[|HttpErrorPrefix|..]) == status
    ensures m[|HttpErrorPrefix|] == '0' ==> status == 0
    ensures |m| > |HttpErrorPrefix| + 1 ==> m[|HttpErrorPrefix|] != '0'
  {
    var digits := NatToString(status);
    DigitsValueOfNatToString(status);
    assert (HttpErrorPrefix + digits)[|HttpErrorPrefix|..] == digits;
    assert (HttpErrorPrefix + digits)[|HttpErrorPrefix|] == digits[0];
    HttpErrorPrefix + digits
  }

  /** Two generic HTTP error messages are equal only for equal statuses. */
  lemma HttpErrorMessageInjective(a: nat, b: nat)
    requires HttpErrorMessage(a) == HttpErrorMessage(b)
    ensures a == b
  {
  }

  /** The message the initial load rejects with for a response that is not ok. */
  function FetchNewsStatusError(status: nat): (m: string)
    ensures status == 403 ==> m == ForbiddenMessage
    ensures status == 401 ==> m == InvalidKeyMessage
    ensures status != 403 && status != 401 ==> m == HttpErrorMessage(status)
  {
    if status == 403 then ForbiddenMessage
    else if status == 401 then InvalidKeyMessage
    else HttpErrorMessage(status)
  }

  /** The message identifies the status: distinct statuses give distinct messages. */
  lemma FetchNewsStatusErrorInjective(a: nat, b: nat)
    requires FetchNewsStatusError(a) == FetchNewsStatusError(b)
    ensures a == b
  {
  }

  /** The message "load more" rejects with for a response that is not ok. */
  function FetchMoreStatusError(status: nat): (m: string)
    ensures status == 429 ==> m == RateLimitMessage
    ensures status != 429 ==> m == HttpErrorMessage(status)
  {
    if status == 429 then RateLimitMessage else HttpErrorMessage(status)
  }

  // ---------------------------------------------------------------- initial load

  /** An image entry of a search result; every field may be absent. */
  datatype RawMedia = RawMedia(
    url: Option<string>,
    format: Option<string>,
    height: Option<int>,
    width: Option<int>,
    kind: Option<string>,
    subtype: Option<string>,
    caption: Option<string>,
    copyright: Option<string>)

  /** A search result ("doc") as the search endpoint returns it. */
  datatype Doc = Doc(
    headline: Option<string>,
    summary: Option<string>,
    leadParagraph: Option<string>,
    webUrl: string,
    pubDate: int,
    multimedia: seq<RawMedia>)

  /** JavaScript's `s || fallback` on an optional string: absent and empty
      strings are both falsy. */
  function OrElse(s: Option<string>, fallback: string): (r: string)
    ensures s.Some? && s.value != [] ==> r == s.value
    ensures (s.None? || s.value == []) ==> r == fallback
  {
    if s.Some? && s.value != [] then s.value else fallback
  }

  /** JavaScript's `n || 0` on an optional number. */
  function OrZero(n: Option<int>): int {
    n.GetOr(0)
  }

  /** An image URL as stored: kept when it starts with "http", otherwise put
      after the image host (an absent URL prints as "undefined"). */
  function MediaUrl(raw: Option<string>): (u: string)
    ensures |u| >= 4 && u[..4] == "http"
    ensures raw.Some? && |raw.value| >= 4 && raw.value[..4] == "http" ==> u == raw.value
    ensures !(raw.Some? && |raw.value| >= 4 && raw.value[..4] == "http") ==>
              u == ImageHost + raw.GetOr("undefined")
  {
    if raw.Some? && |raw.value| >= 4 && raw.value[..4] == "http" then raw.value
    else ImageHost + raw.GetOr("undefined")
  }

  function MapMedia(m: RawMedia): MultimediaItem {
    MultimediaItem(
      MediaUrl(m.url),
      OrElse(m.format, "Large"),
      OrZero(m.height),
      OrZero(m.width),
      OrElse(m.kind, "image"),
      OrElse(m.subtype, ""),
      OrElse(m.caption, ""),
      OrElse(m.copyright, ""))
  }

  /** One search result as an article: the title is never empty, the URL and
      date are copied, and only the first image (if any) is kept, with an
      absolute URL. */
  function MapDoc(d: Doc): (a: Article)
    ensures a.title != []
    ensures d.headline.Some? && d.headline.value != [] ==> a.title == d.headline.value
    ensures !(d.headline.Some? && d.headline.value != []) ==> a.title == "No title"
    ensures d.summary.Some? && d.summary.value != [] ==> a.summary == d.summary.value
    ensures !(d.summary.Some? && d.summary.value != []) && d.leadParagraph.Some? && d.leadParagraph.value != [] ==>
              a.summary == d.leadParagraph.value
    ensures !(d.summary.Some? && d.summary.value != []) && !(d.leadParagraph.Some? && d.leadParagraph.value != []) ==>
              a.summary == []
    ensures a.url == d.webUrl && a.publishedDate == d.pubDate
    ensures a.section.None?
    ensures |a.multimedia| == if d.multimedia == [] then 0 else 1
    ensures d.multimedia != [] ==> a.multimedia[0] == MapMedia(d.multimedia[0])
    ensures forall m :: m in a.multimedia ==> |m.url| >= 4 && m.url[..4] == "http"
  {
    Article(
      OrElse(d.headline, "No title"),
      OrElse(d.summary, OrElse(d.leadParagraph, "")),
      d.pubDate,
      d.webUrl,
      if d.multimedia != [] then [MapMedia(d.multimedia[0])] else [],
      None)
  }

  function Min(a: nat, b: nat): nat {
    if a <= b then a else b
  }

  /** The first `PageSize` search results, each mapped to an article. */
  function MapDocs(docs: seq<Doc>): (r: seq<Article>)
    ensures |r| == Min(|docs|, PageSize)
    ensures forall i :: 0 <= i < |r| ==> r[i] == MapDoc(docs[i])
  {
    seq(Min(|docs|, PageSize), i requires 0 <= i < Min(|docs|, PageSize) => MapDoc(docs[i]))
  }

  /** The initial-load thunk once the search endpoint has answered: the
      mapped first page, or the rejection message. */
  function FetchNews(reply: Reply<Option<seq<Doc>>>): (r: Result<seq<Article>, string>)
    ensures r.Success? <==> reply.Response? && IsOk(reply.status)
    ensures r.Success? ==> r.value == MapDocs(reply.body.GetOr([])) && |r.value| <= PageSize
    ensures reply.Response? && !IsOk(reply.status) ==> r == Failure(FetchNewsStatusError(reply.status))
    ensures reply.Thrown? ==> r == Failure(RejectionMessage(reply.message, FetchNewsFallback))
    ensures r.Failure? ==> r.error != []
  {
    match reply
    case Thrown(message) => Failure(RejectionMessage(message, FetchNewsFallback))
    case Response(status, docs) =>
      if !IsOk(status) then Failure(FetchNewsStatusError(status))
      else Success(MapDocs(docs.GetOr([])))
  }

  // ---------------------------------------------------------------- load more

  /** The payload "load more" fulfils with: the section's stories and the
      section's index, which becomes the new cursor. */
  datatype MorePayload = MorePayload(articles: seq<Article>, sectionIndex: SectionIndex)

  /** The decision "load more" takes before any request: the index of the
      section to request next, or rejection when the list is exhausted. */
  function DecideFetchMore(currentSectionIndex: nat): (r: Result<SectionIndex, string>)
    ensures r.Failure? <==> currentSectionIndex + 1 >= |NewsSections|
    ensures r.Failure? ==> r.error == NoMoreSectionsMessage
    ensures r.Success? ==> r.value == currentSectionIndex + 1
  {
    var next := currentSectionIndex + 1;
    if next >= |NewsSections| then Failure(NoMoreSectionsMessage) else Success(next)
  }

  /** The "load more" thunk. When the cursor is at the last section the result
      does not depend on `reply` at all: no request is made. */
  function FetchMoreNews(currentSectionIndex: nat, reply: Reply<Option<seq<Article>>>): (r: Result<MorePayload, string>)
    ensures currentSectionIndex + 1 >= |NewsSections| ==> r == Failure(NoMoreSectionsMessage)
    ensures r.Success? <==> currentSectionIndex + 1 < |NewsSections| && reply.Response? && IsOk(reply.status)
    ensures r.Success? ==> r.value.sectionIndex == currentSectionIndex + 1
    ensures r.Success? ==> r.value.articles == reply.body.GetOr([])
    ensures currentSectionIndex + 1 < |NewsSections| && reply.Response? && !IsOk(reply.status) ==>
              r == Failure(FetchMoreStatusError(reply.status))
    ensures currentSectionIndex + 1 < |NewsSections| && reply.Thrown? ==>
              r == Failure(RejectionMessage(reply.message, FetchMoreFallback))
    ensures r.Failure? ==> r.error != []
  {
    match DecideFetchMore(currentSectionIndex)
    case Failure(message) => Failure(message)
    case Success(next) =>
      match reply
      case Thrown(message) => Failure(RejectionMessage(message, FetchMoreFallback))
      case Response(status, results) =>
        if !IsOk(status) then Failure(FetchMoreStatusError(status))
        else Success(MorePayload(results.GetOr([]), next))
  }

  /** `existing.some(e => e.url === url)`. */
  predicate HasUrl(existing: seq<Article>, url: string) {
    exists i :: 0 <= i < |existing| && existing[i].url == url
  }

  /** `xs` is `ys` with some elements left out, order kept. */
  ghost predicate IsSubsequence<T>(xs: seq<T>, ys: seq<T>)
    decreases |ys|
  {
    || xs == []
    || (ys != [] && ((xs[0] == ys[0] && IsSubsequence(xs[1..], ys[1..])) || IsSubsequence(xs, ys[1..])))
  }

  /** The incoming articles whose URL is not already in `existing`, in their
      incoming order. */
  function NewArticles(existing: seq<Article>, incoming: seq<Article>): (r: seq<Article>)
    ensures forall a :: a in r <==> a in incoming && !HasUrl(existing, a.url)
    ensures forall a :: multiset(r)[a] == if HasUrl(existing, a.url) then 0 else multiset(incoming)[a]
    ensures IsSubsequence(r, incoming)
    decreases |incoming|
  {
    if incoming == [] then []
    else
      var rest := NewArticles(existing, incoming[1..]);
      assert incoming == [incoming[0]] + incoming[1..];
      if HasUrl(existing, incoming[0].url) then rest else [incoming[0]] + rest
  }

  /** The merge of "load more": the old list, then the incoming articles with
      an unseen URL. */
  function AppendNew(existing: seq<Article>, incoming: seq<Article>): (r: seq<Article>)
    ensures |existing| <= |r| && r[..|existing|] == existing
    ensures IsSubsequence(r[|existing|..], incoming)
    ensures forall a :: a in r[|existing|..] <==> a in incoming && !HasUrl(existing, a.url)
    ensures forall a :: multiset(r[|existing|..])[a] == if HasUrl(existing, a.url) then 0 else multiset(incoming)[a]
  {
    var kept := NewArticles(existing, incoming);
    assert (existing + kept)[|existing|..] == kept;
    existing + kept
  }

  /** No two articles share a URL. */
  ghost predicate UrlsDistinct(s: seq<Article>) {
    forall i, j :: 0 <= i < j < |s| ==> s[i].url != s[j].url
  }

  /** When the incoming stories have distinct URLs, so do the ones kept. */
  lemma {:induction false} NewArticlesUrlsDistinct(existing: seq<Article>, incoming: seq<Article>)
    requires UrlsDistinct(incoming)
    ensures UrlsDistinct(NewArticles(existing, incoming))
    decreases |incoming|
  {
    if incoming != [] {
      var rest := NewArticles(existing, incoming[1..]);
      NewArticlesUrlsDistinct(existing, incoming[1..]);
      if !HasUrl(existing, incoming[0].url) {
        var r := [incoming[0]] + rest;
        forall j | 0 < j < |r| ensures r[0].url != r[j].url {
          assert r[j] == rest[j - 1];
          TailUrlDiffers(incoming, r[j]);
        }
      }
    }
  }

  /** With distinct URLs, an article after the first has another URL than the first. */
  lemma TailUrlDiffers(incoming: seq<Article>, x: Article)
    requires UrlsDistinct(incoming) && incoming != [] && x in incoming[1..]
    ensures x.url != incoming[0].url
  {
    var k :| 0 <= k < |incoming[1..]| && incoming[1..][k] == x;
    assert incoming[k + 1] == x;
  }

  /** The merge keeps URLs distinct when the old list and the incoming stories
      each have distinct URLs. */
  lemma AppendNewUrlsDistinct(existing: seq<Article>, incoming: seq<Article>)
    requires UrlsDistinct(existing) && UrlsDistinct(incoming)
    ensures UrlsDistinct(AppendNew(existing, incoming))
  {
    var r := AppendNew(existing, incoming);
    var n := |existing|;
    NewArticlesUrlsDistinct(existing, incoming);
    forall i, j | 0 <= i < j < |r| ensures r[i].url != r[j].url {
      if j >= n {
        assert r[j] in r[n..];
        if i < n {
          assert r[i] == existing[i];
          assert !HasUrl(existing, r[j].url);
        } else {
          assert r[i] == r[n..][i - n] && r[j] == r[n..][j - n];
        }
      }
    }
  }

  /** Duplicates inside one batch of incoming stories survive the merge: the
      filter only compares against the old list. */
  lemma AppendNewKeepsDuplicatesWithinIncoming(a: Article)
    ensures AppendNew([], [a, a]) == [a, a]
    ensures !UrlsDistinct(AppendNew([], [a, a]))
  {
    assert !HasUrl([], a.url);
    assert NewArticles([], [a]) == [a];
    assert [a, a][1..] == [a];
  }

  // ---------------------------------------------------------------- refresh

  /** The decision refresh takes before any request: still cooling down, so
      the current list is returned as it is. */
  predicate RefreshCoolingDown(now: int, lastFetchTime: int) {
    now - lastFetchTime < RefreshCooldown
  }

  function Take<T>(s: seq<T>, n: nat): (r: seq<T>)
    ensures |r| == Min(|s|, n) && r == s[..|r|]
  {
    s[..Min(|s|, n)]
  }

  /** The refresh thunk: `articles` and `lastFetchTime` are the state it read,
      `now` the clock reading it took. */
  function RefreshNews(articles: seq<Article>, lastFetchTime: int, now: int, reply: Reply<Option<seq<Article>>>)
    : (r: Result<seq<Article>, string>)
    ensures RefreshCoolingDown(now, lastFetchTime) ==> r == Success(articles)
    ensures !RefreshCoolingDown(now, lastFetchTime) && reply.Response? && reply.status == 429 ==> r == Success(articles)
    ensures r.Failure? <==> !RefreshCoolingDown(now, lastFetchTime) && (reply.Thrown? || (!IsOk(reply.status) && reply.status != 429))
    ensures !RefreshCoolingDown(now, lastFetchTime) && reply.Response? && IsOk(reply.status) ==>
              && r.Success?
              && |r.value| <= PageSize
              && Descending(r.value, PublishedAt)
              && multiset(r.value) == multiset(Take(reply.body.GetOr([]), PageSize))
  {
    if RefreshCoolingDown(now, lastFetchTime) then Success(articles)
    else
      match reply
      case Thrown(message) => Failure(RejectionMessage(message, RefreshFallback))
      case Response(status, results) =>
        if !IsOk(status) then
          if status == 429 then Success(articles) else Failure(HttpErrorMessage(status))
        else
          Success(SortDescending(Take(results.GetOr([]), PageSize), PublishedAt))
  }

  // ---------------------------------------------------------------- reducer

  /** The actions the store reacts to. The reducer reads the clock when an
      initial load or a refresh is fulfilled; that reading is carried as `now`. */
  datatype Action =
    | ClearError
    | FetchNewsPending
    | FetchNewsFulfilled(articles: seq<Article>, now: int)
    | FetchNewsRejected(message: string)
    | FetchMoreNewsPending
    | FetchMoreNewsFulfilled(payload: MorePayload)
    | FetchMoreNewsRejected(message: string)
    | RefreshNewsPending
    | RefreshNewsFulfilled(articles: seq<Article>, now: int)
    | RefreshNewsRejected(message: string)
  {
    predicate IsRefresh() {
      RefreshNewsPending? || RefreshNewsFulfilled? || RefreshNewsRejected?
    }

    predicate IsFulfilled() {
      FetchNewsFulfilled? || FetchMoreNewsFulfilled? || RefreshNewsFulfilled?
    }
  }

  /** The store's reducer, one case per action. */
  function Reduce(s: NewsState, action: Action): (r: NewsState)
    // The cursor invariant holds after every action.
    ensures Valid(s) ==> Valid(r)
    // Only fulfilled requests touch the list, the cursor and the fetch time.
    ensures !action.IsFulfilled() ==>
              r.articles == s.articles && r.lastFetchTime == s.lastFetchTime &&
              r.currentSectionIndex == s.currentSectionIndex && r.hasMoreSections == s.hasMoreSections
    // "Load more" only ever extends the list.
    ensures action.FetchMoreNewsFulfilled? ==> |s.articles| <= |r.articles| && r.articles[..|s.articles|] == s.articles
    // Refresh never touches the error, the flags or the cursor.
    ensures action.IsRefresh() ==>
              r.error == s.error && r.loading == s.loading && r.loadingMore == s.loadingMore &&
              r.currentSectionIndex == s.currentSectionIndex && r.hasMoreSections == s.hasMoreSections
    // The error is set only by a rejection, and cleared only by a pending case or clearError.
    ensures r.error != s.error ==>
              if r.error.Some? then (action.FetchNewsRejected? || action.FetchMoreNewsRejected?) && r.error == Some(action.message)
              else action.ClearError? || action.FetchNewsPending? || action.FetchMoreNewsPending?
  {
    match action
    case ClearError =>
      s.(error := None)
    case FetchNewsPending =>
      s.(loading := true, error := None)
    case FetchNewsFulfilled(articles, now) =>
      s.(loading := false, articles := articles, currentSectionIndex := 0,
         hasMoreSections := true, lastFetchTime := now)
    case FetchNewsRejected(message) =>
      s.(loading := false, error := Some(message))
    case FetchMoreNewsPending =>
      s.(loadingMore := true, error := None)
    case FetchMoreNewsFulfilled(payload) =>
      s.(loadingMore := false,
         articles := AppendNew(s.articles, payload.articles),
         currentSectionIndex := payload.sectionIndex,
         hasMoreSections := payload.sectionIndex < |NewsSections| - 1)
    case FetchMoreNewsRejected(message) =>
      s.(loadingMore := false, error := Some(message))
    case RefreshNewsPending =>
      s
    case RefreshNewsFulfilled(articles, now) =>
      s.(articles := articles, lastFetchTime := now)
    case RefreshNewsRejected(_) =>
      s
  }

  // ---------------------------------------------------------------- whole dispatches

  /** `dispatch(fetchNews())`: pending, the request, then fulfilled or
      rejected; `now` is the reducer's clock reading on fulfilment. */
  function FetchNewsRound(s: NewsState, reply: Reply<Option<seq<Doc>>>, now: int): NewsState {
    var pending := Reduce(s, FetchNewsPending);
    match FetchNews(reply)
    case Success(articles) => Reduce(pending, FetchNewsFulfilled(articles, now))
    case Failure(message) => Reduce(pending, FetchNewsRejected(message))
  }

  /** `dispatch(fetchMoreNews())`. */
  function LoadMoreRound(s: NewsState, reply: Reply<Option<seq<Article>>>): NewsState {
    var pending := Reduce(s, FetchMoreNewsPending);
    match FetchMoreNews(pending.currentSectionIndex, reply)
    case Success(payload) => Reduce(pending, FetchMoreNewsFulfilled(payload))
    case Failure(message) => Reduce(pending, FetchMoreNewsRejected(message))
  }

  /** `dispatch(refreshNews())`: `now` is the thunk's clock reading, `settledAt`
      the reducer's on fulfilment. */
  function RefreshRound(s: NewsState, now: int, reply: Reply<Option<seq<Article>>>, settledAt: int): NewsState {
    var pending := Reduce(s, RefreshNewsPending);
    match RefreshNews(pending.articles, pending.lastFetchTime, now, reply)
    case Success(articles) => Reduce(pending, RefreshNewsFulfilled(articles, settledAt))
    case Failure(message) => Reduce(pending, RefreshNewsRejected(message))
  }

  /** The initial load either replaces the list and resets the cursor, with no
      error left, or keeps the list and shows the classified error. */
  lemma FetchNewsRoundOutcome(s: NewsState, reply: Reply<Option<seq<Doc>>>, now: int)
    ensures var r := FetchNewsRound(s, reply, now);
      && !r.loading
      && r.loadingMore == s.loadingMore
      && (if reply.Response? && IsOk(reply.status) then
            && r.articles == MapDocs(reply.body.GetOr([]))
            && r.error.None?
            && r.currentSectionIndex == 0 && r.hasMoreSections
            && r.lastFetchTime == now
          else
            && r.articles == s.articles
            && r.error.Some? && r.error.value != []
            && (reply.Response? ==> r.error == Some(FetchNewsStatusError(reply.status)))
            && r.currentSectionIndex == s.currentSectionIndex
            && r.hasMoreSections == s.hasMoreSections
            && r.lastFetchTime == s.lastFetchTime)
  {
  }

  /** One "load more": on success the cursor moves forward by exactly one and
      the list grows by the unseen stories; otherwise only the error changes. */
  lemma LoadMoreRoundOutcome(s: NewsState, reply: Reply<Option<seq<Article>>>)
    requires Valid(s)
    ensures var r := LoadMoreRound(s, reply);
      && Valid(r)
      && !r.loadingMore
      && r.loading == s.loading
      && r.lastFetchTime == s.lastFetchTime
      && (if s.hasMoreSections && reply.Response? && IsOk(reply.status) then
            && r.currentSectionIndex == s.currentSectionIndex + 1
            && r.articles == AppendNew(s.articles, reply.body.GetOr([]))
            && r.error.None?
          else
            && r.currentSectionIndex == s.currentSectionIndex
            && r.hasMoreSections == s.hasMoreSections
            && r.articles == s.articles
            && r.error.Some?
            && (!s.hasMoreSections ==> r.error == Some(NoMoreSectionsMessage)))
  {
  }

  /** `n` successful "load more" calls in a row, from a cursor with at least
      `n` sections left, move the cursor forward by `n`; "has more" turns
      false exactly when the last section is reached. */
  lemma {:induction false} LoadMoreRoundsAdvanceCursor(s: NewsState, replies: seq<Reply<Option<seq<Article>>>>)
    requires Valid(s)
    requires s.currentSectionIndex + |replies| < |NewsSections|
    requires forall i :: 0 <= i < |replies| ==> replies[i].Response? && IsOk(replies[i].status)
    ensures var r := LoadMoreRounds(s, replies);
      && Valid(r)
      && r.currentSectionIndex == s.currentSectionIndex + |replies|
      && (r.hasMoreSections <==> s.currentSectionIndex + |replies| < |NewsSections| - 1)
      && |s.articles| <= |r.articles| && r.articles[..|s.articles|] == s.articles
    decreases |replies|
  {
    if replies != [] {
      LoadMoreRoundOutcome(s, replies[0]);
      var next := LoadMoreRound(s, replies[0]);
      LoadMoreRoundsAdvanceCursor(next, replies[1..]);
    }
  }

  /** Dispatching "load more" once per reply, in order. */
  function LoadMoreRounds(s: NewsState, replies: seq<Reply<Option<seq<Article>>>>): NewsState
    decreases |replies|
  {
    if replies == [] then s else LoadMoreRounds(LoadMoreRound(s, replies[0]), replies[1..])
  }

  /** After an initial load, the 13 sections after "home" can each be loaded
      once; then "has more" is false and a further "load more" rejects with
      "No more sections available" whatever the network would answer. */
  lemma LoadMoreExhaustsSections(s: NewsState, reply: Reply<Option<seq<Doc>>>, now: int,
                                 replies: seq<Reply<Option<seq<Article>>>>, last: Reply<Option<seq<Article>>>)
    requires reply.Response? && IsOk(reply.status)
    requires |replies| == |NewsSections| - 1
    requires forall i :: 0 <= i < |replies| ==> replies[i].Response? && IsOk(replies[i].status)
    ensures var loaded := LoadMoreRounds(FetchNewsRound(s, reply, now), replies);
      && loaded.currentSectionIndex == |NewsSections| - 1
      && !loaded.hasMoreSections
      && LoadMoreRound(loaded, last).error == Some(NoMoreSectionsMessage)
      && LoadMoreRound(loaded, last).articles == loaded.articles
  {
    var start := FetchNewsRound(s, reply, now);
    FetchNewsRoundOutcome(s, reply, now);
    LoadMoreRoundsAdvanceCursor(start, replies);
    LoadMoreRoundOutcome(LoadMoreRounds(start, replies), last);
  }

  /** Refresh changes nothing but the list and the fetch time, and keeps the
      list when still cooling down or when rate-limited. */
  lemma RefreshRoundOutcome(s: NewsState, now: int, reply: Reply<Option<seq<Article>>>, settledAt: int)
    ensures var r := RefreshRound(s, now, reply, settledAt);
      && r.(articles := s.articles, lastFetchTime := s.lastFetchTime) == s
      && (RefreshCoolingDown(now, s.lastFetchTime) ==> r.articles == s.articles)
      && (reply.Response? && reply.status == 429 ==> r.articles == s.articles)
      && (!RefreshCoolingDown(now, s.lastFetchTime) && reply.Response? && IsOk(reply.status) ==>
            Descending(r.articles, PublishedAt) && |r.articles| <= PageSize)
  {
  }

  /** Two refreshes less than the cool-down apart, the first fulfilled: the
      second leaves the list as the first left it, whatever the network would
      answer. */
  lemma RefreshTwiceWithinCooldown(s: NewsState, t1: int, reply1: Reply<Option<seq<Article>>>, settled1: int,
                                   t2: int, reply2: Reply<Option<seq<Article>>>, settled2: int)
    requires RefreshNews(s.articles, s.lastFetchTime, t1, reply1).Success?
    requires t1 <= settled1 <= t2 && t2 - t1 < RefreshCooldown
    ensures var first := RefreshRound(s, t1, reply1, settled1);
      RefreshRound(first, t2, reply2, settled2).articles == first.articles
  {
    var first := RefreshRound(s, t1, reply1, settled1);
    assert first.lastFetchTime == settled1;
    RefreshRoundOutcome(first, t2, reply2, settled2);
  }

  // ---------------------------------------------------------------- the store

  /** The store's state record, updated in place by one method per reducer case. */
  class NewsStore {
    var articles: seq<Article>
    var loading: bool
    var loadingMore: bool
    var error: Option<string>
    var currentSectionIndex: nat
    var hasMoreSections: bool
    var lastFetchTime: int

    function State(): NewsState
      reads this
    {
      NewsState(articles, loading, loadingMore, error, currentSectionIndex, hasMoreSections, lastFetchTime)
    }

    constructor ()
      ensures State() == InitialState
    {
      articles, loading, loadingMore, error := [], false, false, None;
      currentSectionIndex, hasMoreSections, lastFetchTime := 0, true, 0;
    }

    method ClearError()
      modifies this
      ensures State() == Reduce(old(State()), Action.ClearError)
    {
      error := None;
    }

    method FetchNewsPending()
      modifies this
      ensures State() == Reduce(old(State()), Action.FetchNewsPending)
    {
      loading := true;
      error := None;
    }

    method FetchNewsFulfilled(payload: seq<Article>, now: int)
      modifies this
      ensures State() == Reduce(old(State()), Action.FetchNewsFulfilled(payload, now))
    {
      loading := false;
      articles := payload;
      currentSectionIndex := 0;
      hasMoreSections := true;
      lastFetchTime := now;
    }

    method FetchNewsRejected(message: string)
      modifies this
      ensures State() == Reduce(old(State()), Action.FetchNewsRejected(message))
    {
      loading := false;
      error := Some(message);
    }

    method FetchMoreNewsPending()
      modifies this
      ensures State() == Reduce(old(State()), Action.FetchMoreNewsPending)
    {
      loadingMore := true;
      error := None;
    }

    method FetchMoreNewsFulfilled(payload: MorePayload)
      modifies this
      ensures State() == Reduce(old(State()), Action.FetchMoreNewsFulfilled(payload))
    {
      loadingMore := false;
      var newArticles := NewArticles(articles, payload.articles);
      articles := articles + newArticles;
      currentSectionIndex := payload.sectionIndex;
      hasMoreSections := payload.sectionIndex < |NewsSections| - 1;
    }

    method FetchMoreNewsRejected(message: string)
      modifies this
      ensures State() == Reduce(old(State()), Action.FetchMoreNewsRejected(message))
    {
      loadingMore := false;
      error := Some(message);
    }

    method RefreshNewsPending()
      ensures State() == Reduce(old(State()), Action.RefreshNewsPending)
    {
    }

    method RefreshNewsFulfilled(payload: seq<Article>, now: int)
      modifies this
      ensures State() == Reduce(old(State()), Action.RefreshNewsFulfilled(payload, now))
    {
      articles := payload;
      lastFetchTime := now;
    }

    method RefreshNewsRejected(message: string)
      ensures State() == Reduce(old(State()), Action.RefreshNewsRejected(message))
    {
    }

    /** `dispatch(fetchNews())`. */
    method DispatchFetchNews(reply: Reply<Option<seq<Doc>>>, now: int)
      modifies this
      ensures State() == FetchNewsRound(old(State()), reply, now)
    {
      FetchNewsPending();
      match FetchNews(reply)
      case Success(payload) => FetchNewsFulfilled(payload, now);
      case Failure(message) => FetchNewsRejected(message);
    }

    /** `dispatch(fetchMoreNews())`: the thunk reads the cursor from the store. */
    method DispatchFetchMoreNews(reply: Reply<Option<seq<Article>>>)
      modifies this
      ensures State() == LoadMoreRound(old(State()), reply)
    {
      FetchMoreNewsPending();
      match FetchMoreNews(currentSectionIndex, reply)
      case Success(payload) => FetchMoreNewsFulfilled(payload);
      case Failure(message) => FetchMoreNewsRejected(message);
    }

    /** `dispatch(refreshNews())`: the thunk reads the list and the fetch time
      from the store. */
    method DispatchRefreshNews(now: int, reply: Reply<Option<seq<Article>>>, settledAt: int)
      modifies this
      ensures State() == RefreshRound(old(State()), now, reply, settledAt)
    {
      RefreshNewsPending();
      match RefreshNews(articles, lastFetchTime, now, reply)
      case Success(payload) => RefreshNewsFulfilled(payload, settledAt);
      case Failure(message) => RefreshNewsRejected(message);
    }
  }
}
