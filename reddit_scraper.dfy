/** src/scraper/reddit_scraper.py: the keyword filter and the post records of
    `scrape`. The Reddit API calls are not part of this model. */
module RedditScraper {
  import opened Text
  import opened Values
  import opened Seqs

  /** `article['title']` is present and is text, as `.lower()` needs. */
  predicate HasTextTitle(a: Record) {
    "title" in a && a["title"].Str?
  }

  predicate AllHaveTextTitles(articles: seq<Record>) {
    forall i | 0 <= i < |articles| :: HasTextTitle(articles[i])
  }

  /** `keyword.lower() in article['title'].lower()`. */
  predicate Matches(a: Record, keyword: string)
    requires HasTextTitle(a)
  {
    Contains(Lower(a["title"].s), Lower(keyword))
  }

  /** `RedditScraper.filter_articles`: the articles whose title contains the
      keyword, ignoring case, in input order. */
  function FilterArticles(articles: seq<Record>, keyword: string): (r: seq<Record>)
    requires AllHaveTextTitles(articles)
    ensures forall a | a in r :: a in articles && HasTextTitle(a) && Matches(a, keyword)
    ensures forall a | a in articles && Matches(a, keyword) :: a in r
    decreases |articles|
  {
    if articles == [] then []
    else
      var init := articles[..|articles| - 1];
      var last := articles[|articles| - 1];
      assert forall a | a in init :: a in articles;
      if Matches(last, keyword) then FilterArticles(init, keyword) + [last]
      else FilterArticles(init, keyword)
  }

  /** The kept articles appear in the input in the same order. */
  lemma {:induction false} FilterIsSubsequence(articles: seq<Record>, keyword: string)
    requires AllHaveTextTitles(articles)
    ensures IsSubsequence(FilterArticles(articles, keyword), articles)
    decreases |articles|
  {
    if articles != [] {
      var init := articles[..|articles| - 1];
      var last := articles[|articles| - 1];
      FilterIsSubsequence(init, keyword);
      SubsequenceExtend(FilterArticles(init, keyword), init, last);
      assert init + [last] == articles;
    }
  }

  /** Filtering is done article by article: filtering `a + b` is filtering
      `a`, then `b`. */
  lemma {:induction false} FilterAppend(a: seq<Record>, b: seq<Record>, keyword: string)
    requires AllHaveTextTitles(a) && AllHaveTextTitles(b)
    ensures AllHaveTextTitles(a + b)
    ensures FilterArticles(a + b, keyword) == FilterArticles(a, keyword) + FilterArticles(b, keyword)
    decreases |b|
  {
    assert forall x | x in a + b :: x in a || x in b;
    if b == [] {
      assert a + b == a;
    } else {
      var init, last := b[..|b| - 1], b[|b| - 1];
      assert forall x | x in init :: x in b;
      assert (a + b)[..|a + b| - 1] == a + init;
      assert (a + b)[|a + b| - 1] == last;
      FilterAppend(a, init, keyword);
    }
  }

  lemma {:induction false} FilterOfMatching(articles: seq<Record>, keyword: string)
    requires AllHaveTextTitles(articles)
    requires forall i | 0 <= i < |articles| :: Matches(articles[i], keyword)
    ensures FilterArticles(articles, keyword) == articles
    decreases |articles|
  {
    if articles != [] {
      FilterOfMatching(articles[..|articles| - 1], keyword);
    }
  }

  /** Every title contains the empty keyword, so it keeps everything. */
  lemma FilterEmptyKeywordKeepsAll(articles: seq<Record>)
    requires AllHaveTextTitles(articles)
    ensures FilterArticles(articles, "") == articles
  {
    forall i | 0 <= i < |articles| ensures Matches(articles[i], "") {
      var t := Lower(articles[i]["title"].s);
      assert [] <= t[0..];
    }
    FilterOfMatching(articles, "");
  }

  /** Filtering again by the same keyword changes nothing. */
  lemma FilterIdempotent(articles: seq<Record>, keyword: string)
    requires AllHaveTextTitles(articles)
    ensures AllHaveTextTitles(FilterArticles(articles, keyword))
    ensures FilterArticles(FilterArticles(articles, keyword), keyword) == FilterArticles(articles, keyword)
  {
    var r := FilterArticles(articles, keyword);
    assert forall i | 0 <= i < |r| :: r[i] in r;
    FilterOfMatching(r, keyword);
  }

  /** The fields of a submission that `scrape` copies; `createdDate` is the
      `%Y-%m-%d` rendering of its creation time. */
  datatype Submission = Submission(title: string, url: string, score: int, createdDate: string)

  /** The record `scrape` appends for one submission of `subreddit`. */
  function PostRecord(post: Submission, subreddit: string): (r: Record)
    ensures r.Keys == {"title", "link", "score", "date", "subreddit", "source"}
    ensures r["source"] == Str("Reddit r/" + subreddit)
    ensures r["subreddit"] == Str(subreddit)
    ensures HasTextTitle(r)
  {
    map["title" := Str(post.title), "link" := Str(post.url), "score" := Int(post.score),
        "date" := Str(post.createdDate), "subreddit" := Str(subreddit),
        "source" := Str("Reddit r/" + subreddit)]
  }
}
