/** src/scraper/hacker_news_scraper.py: the row loops of `scrape` and
    `get_newest`, the comments link, and `_extract_metadata`, which updates
    an article dictionary in place. A fetched page is the list of its
    `tr.athing` rows, each given as what the selectors found. */
module HackerNewsScraper {
  import opened Values
  import opened Selectors
  import opened Links
  import opened Text

  const BaseUrl := "https://news.ycombinator.com/"
  const NewestUrl := BaseUrl + "newest"

  /** The `td.subtext` cell: its `.score`, `.hnuser` and `.age` elements. */
  datatype Subtext = Subtext(score: Option<Element>, user: Option<Element>, age: Option<Element>)

  /** The row after a story row; `subtext` is its `td.subtext` cell, if any. */
  datatype SubtextRow = SubtextRow(subtext: Option<Subtext>)

  /** A `tr.athing` row: its `span.titleline > a` anchor, its `id` attribute
      and the following row. */
  datatype StoryRow = StoryRow(anchor: Option<Element>, id: Option<string>, next: Option<SubtextRow>)

  /** The two feeds: `scrape` reads the front page, `get_newest` the newest page. */
  datatype Feed = Front | Newest

  /** `datetime.strptime(stamp, '%Y-%m-%dT%H:%M:%S').strftime('%Y-%m-%d')`,
      `None` where `strptime` raises `ValueError`. */
  type DateParser = string -> Option<string>

  /** The comments page of a row with a non-empty id, else `None`. */
  function CommentsLink(id: Option<string>): (v: Value)
    ensures id.Some? && id.value != "" ==> v == Str(BaseUrl + "item?id=" + id.value)
    ensures !(id.Some? && id.value != "") ==> v == Null
  {
    if id.Some? && id.value != "" then Str(BaseUrl + "item?id=" + id.value) else Null
  }

  /** The date read from the `.age` element's `title`: `None` without one;
      today's date when it does not parse. */
  function AgeDate(age: Option<Element>, parse: DateParser, today: string): (d: Option<string>)
    ensures d.None? <==> !HasNonEmptyAttr(age, "title")
    ensures d.Some? && parse(age.value.attrs["title"]).None? ==> d.value == today
    ensures d.Some? && parse(age.value.attrs["title"]).Some? ==> d == parse(age.value.attrs["title"])
  {
    if HasNonEmptyAttr(age, "title") then
      match parse(age.value.attrs["title"])
      case Some(date) => Some(date)
      case None => Some(today)
    else None
  }

  /** The record `scrape` builds for a row: its metadata, read inline,
      defaults to score 'Unknown', no author and no date. */
  function FrontRecord(row: StoryRow, title: string, link: string, parse: DateParser, today: string)
    : (r: Record)
    ensures r.Keys == {"title", "link", "comments_link", "score", "author", "date", "source"}
    ensures r["source"] == Str("Hacker News") && r["comments_link"] == CommentsLink(row.id)
    ensures (row.next.None? || row.next.value.subtext.None? || row.next.value.subtext.value.score.None?)
            ==> r["score"] == Str("Unknown")
  {
    var subtext := if row.next.Some? then row.next.value.subtext else None;
    var score := if subtext.Some? && subtext.value.score.Some? then subtext.value.score.value.text else "Unknown";
    var author := if subtext.Some? && subtext.value.user.Some? then Str(subtext.value.user.value.text) else Null;
    var date := if subtext.Some? then OptStr(AgeDate(subtext.value.age, parse, today)) else Null;
    map["title" := Str(title), "link" := Str(link), "comments_link" := CommentsLink(row.id),
        "score" := Str(score), "author" := author, "date" := date, "source" := Str("Hacker News")]
  }

  /** What `_extract_metadata` leaves in the article: without a subtext cell
      nothing changes; otherwise the score is set (default 'Unknown'), and
      the author and date only when found. */
  function MetadataUpdate(article: Record, row: SubtextRow, parse: DateParser, today: string): (r: Record)
    ensures row.subtext.None? ==> r == article
    ensures forall k | k in article && k !in {"score", "author", "date"} :: k in r && r[k] == article[k]
    ensures forall k | k in r && k !in {"score", "author", "date"} :: k in article
    ensures row.subtext.Some? ==> "score" in r
    ensures row.subtext.Some? && row.subtext.value.score.None? ==> r["score"] == Str("Unknown")
  {
    if row.subtext.None? then article
    else
      var subtext := row.subtext.value;
      var withScore := article["score" := Str(if subtext.score.Some? then subtext.score.value.text else "Unknown")];
      var withAuthor := if subtext.user.Some? then withScore["author" := Str(subtext.user.value.text)] else withScore;
      match AgeDate(subtext.age, parse, today)
      case Some(date) => withAuthor["date" := Str(date)]
      case None => withAuthor
  }

  /** Extracting the metadata a second time changes nothing. */
  lemma MetadataUpdateIdempotent(article: Record, row: SubtextRow, parse: DateParser, today: string)
    ensures MetadataUpdate(MetadataUpdate(article, row, parse, today), row, parse, today)
         == MetadataUpdate(article, row, parse, today)
  {
  }

  /** The metadata `scrape` reads inline is what `_extract_metadata` writes
      over the defaults score 'Unknown', no author and no date. */
  lemma FrontMetadataAgrees(row: StoryRow, title: string, link: string, parse: DateParser, today: string)
    requires row.next.Some?
    ensures
      var defaults := map["title" := Str(title), "link" := Str(link), "comments_link" := CommentsLink(row.id),
                          "score" := Str("Unknown"), "author" := Null, "date" := Null,
                          "source" := Str("Hacker News")];
      FrontRecord(row, title, link, parse, today) == MetadataUpdate(defaults, row.next.value, parse, today)
  {
  }

  /** What the loop does with one row: skip it (no title anchor), stop with
      a `KeyError` (an anchor without `href`, caught by the outer handler),
      or keep a record. */
  datatype Step = Skip | Fail | Keep(record: Record)

  function NewestBase(title: string, link: string): Record {
    map["title" := Str(title), "link" := Str(link), "source" := Str("Hacker News (New)")]
  }

  function RowStep(feed: Feed, row: StoryRow, parse: DateParser, today: string): (s: Step)
    ensures s.Skip? <==> row.anchor.None?
    ensures s.Fail? <==> row.anchor.Some? && "href" !in row.anchor.value.attrs
    ensures s.Keep? ==> "link" in s.record && s.record["link"].Str? && StartsWith(s.record["link"].s, "http")
  {
    if row.anchor.None? then Skip
    else if "href" !in row.anchor.value.attrs then Fail
    else
      var title := row.anchor.value.text;
      var href := row.anchor.value.attrs["href"];
      var link := AbsoluteLink(BaseUrl, href);
      AbsoluteLinkIsAbsolute(BaseUrl, href);
      match feed
      case Front => Keep(FrontRecord(row, title, link, parse, today))
      case Newest =>
        var base := NewestBase(title, link);
        Keep(if row.next.Some? then MetadataUpdate(base, row.next.value, parse, today) else base)
  }

  /** The loop from `acc` on: rows are taken in order, and the loop stops
      after the append that brings the list to `limit`; `None` on a
      `KeyError`. */
  function Collect(feed: Feed, rows: seq<StoryRow>, limit: int, acc: seq<Record>, parse: DateParser,
                   today: string): Option<seq<Record>>
    decreases |rows|
  {
    if rows == [] then Some(acc)
    else
      match RowStep(feed, rows[0], parse, today)
      case Skip => Collect(feed, rows[1..], limit, acc, parse, today)
      case Fail => None
      case Keep(a) =>
        if |acc + [a]| >= limit then Some(acc + [a])
        else Collect(feed, rows[1..], limit, acc + [a], parse, today)
  }

  function Max(a: int, b: int): int { if a < b then b else a }

  /** The check after each append bounds the list by `max(limit, 1)`. */
  lemma {:induction false} CollectBound(feed: Feed, rows: seq<StoryRow>, limit: int, acc: seq<Record>,
                                        parse: DateParser, today: string)
    requires |acc| < Max(limit, 1)
    ensures var r := Collect(feed, rows, limit, acc, parse, today);
      r.Some? ==> |acc| <= |r.value| <= Max(limit, 1) && acc <= r.value
    decreases |rows|
  {
    if rows != [] {
      match RowStep(feed, rows[0], parse, today)
      case Skip => CollectBound(feed, rows[1..], limit, acc, parse, today);
      case Fail =>
      case Keep(a) =>
        if |acc + [a]| < limit {
          CollectBound(feed, rows[1..], limit, acc + [a], parse, today);
        }
    }
  }

  /** When every row has a title anchor with `href`, the loop returns
      exactly `min(len(rows), max(limit, 1))` records. */
  lemma {:induction false} CollectExact(feed: Feed, rows: seq<StoryRow>, limit: int, acc: seq<Record>,
                                        parse: DateParser, today: string)
    requires forall i | 0 <= i < |rows| :: rows[i].anchor.Some? && "href" in rows[i].anchor.value.attrs
    requires |acc| < Max(limit, 1)
    ensures var r := Collect(feed, rows, limit, acc, parse, today);
      r.Some? && |r.value| == if |acc| + |rows| < Max(limit, 1) then |acc| + |rows| else Max(limit, 1)
    decreases |rows|
  {
    if rows != [] {
      var s := RowStep(feed, rows[0], parse, today);
      assert s.Keep?;
      if |acc + [s.record]| < limit {
        CollectExact(feed, rows[1..], limit, acc + [s.record], parse, today);
      }
    }
  }

  function SourceName(feed: Feed): string {
    match feed
    case Front => "Hacker News"
    case Newest => "Hacker News (New)"
  }

  /** Every record the loop appends has an absolute link and its feed's
      source name; the front page's also carry a comments link. */
  lemma {:induction false} CollectRecordsShape(feed: Feed, rows: seq<StoryRow>, limit: int, acc: seq<Record>,
                                               parse: DateParser, today: string)
    ensures var r := Collect(feed, rows, limit, acc, parse, today);
      r.Some? ==> (acc <= r.value &&
        forall k | |acc| <= k < |r.value| ::
          "link" in r.value[k] && r.value[k]["link"].Str? && StartsWith(r.value[k]["link"].s, "http") &&
          "source" in r.value[k] && r.value[k]["source"] == Str(SourceName(feed)) &&
          (feed == Front ==> "comments_link" in r.value[k]))
    decreases |rows|
  {
    if rows != [] {
      match RowStep(feed, rows[0], parse, today)
      case Skip => CollectRecordsShape(feed, rows[1..], limit, acc, parse, today);
      case Fail =>
      case Keep(a) =>
        if |acc + [a]| < limit {
          CollectRecordsShape(feed, rows[1..], limit, acc + [a], parse, today);
        }
    }
  }

  /** What `scrape` (feed `Front`) and `get_newest` (feed `Newest`) return:
      nothing when the request raised, the status is not 200 or a title
      anchor lacks `href`; otherwise the collected records. */
  function ScrapeResult(feed: Feed, response: Option<Response<seq<StoryRow>>>, limit: int,
                        parse: DateParser, today: string): (r: seq<Record>)
    ensures response.None? || response.value.status != 200 ==> r == []
  {
    if response.None? || response.value.status != 200 then []
    else
      match Collect(feed, response.value.page, limit, [], parse, today)
      case Some(articles) => articles
      case None => []
  }

  /** At most `max(limit, 1)` records. */
  lemma ScrapeResultBound(feed: Feed, response: Option<Response<seq<StoryRow>>>, limit: int,
                          parse: DateParser, today: string)
    ensures |ScrapeResult(feed, response, limit, parse, today)| <= Max(limit, 1)
  {
    if response.Some? && response.value.status == 200 {
      CollectBound(feed, response.value.page, limit, [], parse, today);
    }
  }

  lemma CollectUnfold(feed: Feed, rows: seq<StoryRow>, i: nat, limit: int, acc: seq<Record>,
                      parse: DateParser, today: string)
    requires i < |rows|
    ensures Collect(feed, rows[i..], limit, acc, parse, today) ==
      match RowStep(feed, rows[i], parse, today)
      case Skip => Collect(feed, rows[i + 1..], limit, acc, parse, today)
      case Fail => None
      case Keep(a) =>
        if |acc + [a]| >= limit then Some(acc + [a])
        else Collect(feed, rows[i + 1..], limit, acc + [a], parse, today)
  {
    assert rows[i..][0] == rows[i];
    assert rows[i..][1..] == rows[i + 1..];
  }

  /** An article dictionary that `_extract_metadata` updates in place. */
  class ArticleDict {
    var entries: Record

    constructor (entries: Record)
      ensures this.entries == entries
    {
      this.entries := entries;
    }

    /** `HackerNewsScraper._extract_metadata`. */
    method ExtractMetadata(subtextRow: SubtextRow, parse: DateParser, today: string)
      modifies this
      ensures entries == MetadataUpdate(old(entries), subtextRow, parse, today)
    {
      if subtextRow.subtext.None? {
        return;
      }
      var subtext := subtextRow.subtext.value;
      if subtext.score.Some? {
        entries := entries["score" := Str(subtext.score.value.text)];
      } else {
        entries := entries["score" := Str("Unknown")];
      }
      if subtext.user.Some? {
        entries := entries["author" := Str(subtext.user.value.text)];
      }
      if HasNonEmptyAttr(subtext.age, "title") {
        var parsed := parse(subtext.age.value.attrs["title"]);
        if parsed.Some? {
          entries := entries["date" := Str(parsed.value)];
        } else {
          entries := entries["date" := Str(today)];
        }
      }
    }
  }

  /** The body of the front-page loop after the link: the comments link and
      the metadata read from the subtext row, with their defaults. */
  method FrontArticle(item: StoryRow, title: string, link: string, parse: DateParser, today: string)
    returns (article: Record)
    ensures article == FrontRecord(item, title, link, parse, today)
  {
    var commentsLink := if item.id.Some? && item.id.value != "" then Str(BaseUrl + "item?id=" + item.id.value) else Null;
    var scoreText := "Unknown";
    var author := Null;
    var pubDate := Null;
    if item.next.Some? {
      var subtext := item.next.value.subtext;
      if subtext.Some? {
        if subtext.value.score.Some? {
          scoreText := subtext.value.score.value.text;
        }
        if subtext.value.user.Some? {
          author := Str(subtext.value.user.value.text);
        }
        var age := subtext.value.age;
        if HasNonEmptyAttr(age, "title") {
          var parsed := parse(age.value.attrs["title"]);
          pubDate := if parsed.Some? then Str(parsed.value) else Str(today);
        }
      }
    }
    article := map["title" := Str(title), "link" := Str(link), "comments_link" := commentsLink,
                   "score" := Str(scoreText), "author" := author, "date" := pubDate,
                   "source" := Str("Hacker News")];
  }

  /** `HackerNewsScraper.scrape`. */
  method Scrape(response: Option<Response<seq<StoryRow>>>, limit: int, parse: DateParser, today: string)
    returns (articles: seq<Record>)
    ensures articles == ScrapeResult(Front, response, limit, parse, today)
  {
    if response.None? || response.value.status != 200 {
      return [];
    }
    var rows := response.value.page;
    articles := [];
    var i := 0;
    while i < |rows|
      invariant 0 <= i <= |rows|
      invariant Collect(Front, rows, limit, [], parse, today) == Collect(Front, rows[i..], limit, articles, parse, today)
    {
      var item := rows[i];
      CollectUnfold(Front, rows, i, limit, articles, parse, today);
      if item.anchor.None? {
        i := i + 1;
        continue;
      }
      var titleElement := item.anchor.value;
      if "href" !in titleElement.attrs {
        return [];
      }
      var title := titleElement.text;
      var link := titleElement.attrs["href"];
      if !StartsWith(link, "http") {
        link := BaseUrl + link;
      }
      var article := FrontArticle(item, title, link, parse, today);
      articles := articles + [article];
      if |articles| >= limit {
        break;
      }
      i := i + 1;
    }
  }

  /** `HackerNewsScraper.get_newest`. */
  method GetNewest(response: Option<Response<seq<StoryRow>>>, limit: int, parse: DateParser, today: string)
    returns (articles: seq<Record>)
    ensures articles == ScrapeResult(Newest, response, limit, parse, today)
  {
    if response.None? || response.value.status != 200 {
      return [];
    }
    var rows := response.value.page;
    articles := [];
    var i := 0;
    while i < |rows|
      invariant 0 <= i <= |rows|
      invariant Collect(Newest, rows, limit, [], parse, today) == Collect(Newest, rows[i..], limit, articles, parse, today)
    {
      var item := rows[i];
      CollectUnfold(Newest, rows, i, limit, articles, parse, today);
      if item.anchor.None? {
        i := i + 1;
        continue;
      }
      var titleElement := item.anchor.value;
      if "href" !in titleElement.attrs {
        return [];
      }
      var title := titleElement.text;
      var link := titleElement.attrs["href"];
      if !StartsWith(link, "http") {
        link := BaseUrl + link;
      }
      var article := new ArticleDict(map["title" := Str(title), "link" := Str(link),
                                         "source" := Str("Hacker News (New)")]);
      if item.next.Some? {
        article.ExtractMetadata(item.next.value, parse, today);
      }
      articles := articles + [article.entries];
      if |articles| >= limit {
        break;
      }
      i := i + 1;
    }
  }
}
