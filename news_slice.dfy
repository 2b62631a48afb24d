/** The news slice (redux/slices/newsSlice.js): the headlines/full-article
    view switch, the fetch lifecycle, and the `cachedNews` fallback in local
    storage, which is modelled as a field of the store. */
module NewsSlice {
  import opened Common

  /** An item of the news API's `results`; the slice only stores and hands
      articles on. */
  datatype Article = Article(articleId: string, title: string, link: string)

  datatype ViewMode = Headlines | FullArticle

  /** The `cachedNews` entry as `loadCachedNews` finds it: no `window`
      (server rendering), no entry (or an empty one), an entry that cannot
      be read or parsed, or a parsed `{articles}` object. */
  datatype Storage = NoWindow | NoEntry | Unreadable | Entry(articles: seq<Article>)

  /** `loadCachedNews().articles`. */
  function LoadCachedNews(st: Storage): (r: seq<Article>)
  {
    if st.Entry? then st.articles else []
  }

  /** `saveNewsToCache(articles)`: writes the entry when there is a window. */
  function SaveNewsToCache(st: Storage, articles: seq<Article>): Storage
  {
    if st.NoWindow? then st else Entry(articles)
  }

  /** Every fallback case reads as no articles, and what was saved reads
      back as it was saved. */
  lemma CacheRoundTrip(st: Storage, articles: seq<Article>)
    ensures !st.Entry? ==> LoadCachedNews(st) == []
    ensures !st.NoWindow? ==> LoadCachedNews(SaveNewsToCache(st, articles)) == articles
    ensures st.NoWindow? ==> LoadCachedNews(SaveNewsToCache(st, articles)) == []
  {
  }

  /** What the news endpoint answered: `response.ok`, `status`,
      `statusText`, and the `results` of the body (`None` when missing). */
  datatype NewsResponse = NewsResponse(ok: bool, status: int, statusText: string, results: Option<seq<Article>>)

  datatype NewsFetch = NewsFetched(articles: seq<Article>) | NewsFailed(message: string)

  /** The body of `fetchCryptoNews` after the request (lines 33-50). */
  function FetchNews(resp: NewsResponse): (r: NewsFetch)
    ensures r.NewsFetched? <==> resp.ok && resp.results.Some?
    ensures r.NewsFetched? ==> r.articles == resp.results.value
  {
    if !resp.ok then NewsFailed("Failed to fetch news: " + IntToString(resp.status) + " " + resp.statusText)
    else if resp.results.None? then NewsFailed("Invalid API response format")
    else NewsFetched(resp.results.value)
  }

  /** A failed status is reported with its number and text; a body without
      `results` with its own message. */
  lemma FetchNewsFailures(resp: NewsResponse)
    ensures !resp.ok && resp.status >= 0 ==>
      FetchNews(resp) == NewsFailed("Failed to fetch news: " + NatToString(resp.status) + " " + resp.statusText)
    ensures resp.ok && resp.results.None? ==> FetchNews(resp) == NewsFailed("Invalid API response format")
  {
  }

  class NewsStore {
    var articles: seq<Article>
    var loading: bool
    var error: Option<string>
    var selectedArticle: Option<Article>
    var viewMode: ViewMode
    /** The `cachedNews` entry of local storage. */
    var storage: Storage

    /** `initialState`. */
    constructor (storage: Storage)
      ensures articles == [] && !loading && error == None
      ensures selectedArticle == None && viewMode == Headlines
      ensures this.storage == storage
    {
      articles := [];
      loading := false;
      error := None;
      selectedArticle := None;
      viewMode := Headlines;
      this.storage := storage;
    }

    method SelectArticle(article: Article)
      modifies this
      ensures selectedArticle == Some(article) && viewMode == FullArticle
      ensures articles == old(articles) && loading == old(loading) && error == old(error)
      ensures storage == old(storage)
    {
      selectedArticle := Some(article);
      viewMode := FullArticle;
    }

    /** The selected article is kept, so the view can return to it. */
    method BackToHeadlines()
      modifies this
      ensures viewMode == Headlines
      ensures selectedArticle == old(selectedArticle)
      ensures articles == old(articles) && loading == old(loading) && error == old(error)
      ensures storage == old(storage)
    {
      viewMode := Headlines;
    }

    method Pending()
      modifies this
      ensures loading && error == None
      ensures articles == old(articles) && selectedArticle == old(selectedArticle) && viewMode == old(viewMode)
      ensures storage == old(storage)
    {
      loading := true;
      error := None;
    }

    /** `action.payload.articles || []`. */
    method Fulfilled(payloadArticles: Option<seq<Article>>)
      modifies this
      ensures !loading && error == None
      ensures articles == (if payloadArticles.Some? then payloadArticles.value else [])
      ensures selectedArticle == old(selectedArticle) && viewMode == old(viewMode)
      ensures storage == old(storage)
    {
      loading := false;
      articles := if payloadArticles.Some? then payloadArticles.value else [];
      error := None;
    }

    /** The cached list replaces the articles only when it is non-empty. */
    method Rejected(payload: Option<string>)
      modifies this
      ensures !loading && error == payload
      ensures articles == (if |LoadCachedNews(storage)| > 0 then LoadCachedNews(storage) else old(articles))
      ensures selectedArticle == old(selectedArticle) && viewMode == old(viewMode)
      ensures storage == old(storage)
    {
      loading := false;
      error := payload;
      var cached := LoadCachedNews(storage);
      if |cached| > 0 {
        articles := cached;
      }
    }

    /** One `fetchCryptoNews` dispatch: pending, then either the cache write
        and fulfilled, or rejected. The thunk rethrows instead of calling
        `rejectWithValue`, so the rejected payload is `undefined` and the
        stored error is empty. */
    method FetchCryptoNews(resp: NewsResponse)
      modifies this
      ensures !loading
      ensures FetchNews(resp).NewsFetched? ==>
        && articles == FetchNews(resp).articles && error == None
        && storage == SaveNewsToCache(old(storage), articles)
      ensures FetchNews(resp).NewsFailed? ==>
        && error == None && storage == old(storage)
        && articles == (if |LoadCachedNews(storage)| > 0 then LoadCachedNews(storage) else old(articles))
      ensures selectedArticle == old(selectedArticle) && viewMode == old(viewMode)
    {
      Pending();
      var outcome := FetchNews(resp);
      if outcome.NewsFetched? {
        storage := SaveNewsToCache(storage, outcome.articles);
        Fulfilled(Some(outcome.articles));
      } else {
        Rejected(None);
      }
    }
  }

  /** Opening an article and going back keeps it selected; opening another
      replaces it. */
  method ArticleNavigation(a: Article, b: Article) returns (mode1: ViewMode, kept: Option<Article>, mode2: ViewMode, replaced: Option<Article>)
    ensures mode1 == Headlines && kept == Some(a)
    ensures mode2 == FullArticle && replaced == Some(b)
  {
    var store := new NewsStore(NoEntry);
    store.SelectArticle(a);
    store.BackToHeadlines();
    mode1, kept := store.viewMode, store.selectedArticle;
    store.SelectArticle(b);
    mode2, replaced := store.viewMode, store.selectedArticle;
  }

  /** After a successful fetch, a failing one leaves its articles shown,
      whether they come back from the cache (a non-empty list) or stay from
      before (an empty one, or no window to cache in); the error is empty
      either way. */
  method CachedFallback(st: Storage, good: NewsResponse, bad: NewsResponse) returns (shown: seq<Article>, err: Option<string>)
    requires good.ok && good.results.Some?
    requires !bad.ok
    ensures shown == good.results.value
    ensures err == None
  {
    var store := new NewsStore(st);
    store.FetchCryptoNews(good);
    store.FetchCryptoNews(bad);
    shown, err := store.articles, store.error;
  }

  /** A first fetch that fails shows what an earlier session cached. */
  method StartupFromCache(cached: seq<Article>, bad: NewsResponse) returns (shown: seq<Article>)
    requires !bad.ok
    ensures shown == cached
  {
    var store := new NewsStore(Entry(cached));
    store.FetchCryptoNews(bad);
    shown := store.articles;
  }
}
