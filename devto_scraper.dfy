/** src/scraper/devto_scraper.py: the record-shaping logic of `scrape` and
    `parse_article`. A fetched page is given as parsed elements: each
    selector cascade is the ordered list of what its selectors found. */
module DevToScraper {
  import opened Text
  import opened Values
  import opened Seqs
  import opened Selectors
  import opened Links

  const BaseUrl := "https://dev.to"
  const TopWeekUrl := BaseUrl + "/top/week"

  /** One story card. `titles` holds what `h2.crayons-story__title`, `h2`
      and `h3` found, `links` the four link selectors, `dates` the three
      date selectors, `authors` the two author selectors; `tags` is every
      `.crayons-tag` element. */
  datatype StoryItem = StoryItem(
    titles: seq<Option<Element>>,
    links: seq<Option<Element>>,
    dates: seq<Option<Element>>,
    authors: seq<Option<Element>>,
    tags: seq<Element>)

  /** The `datetime` attribute up to its first 'T', or today's date when the
      date element or the attribute is missing or empty. */
  function PubDate(dates: seq<Option<Element>>, today: string): (d: string)
    ensures !HasNonEmptyAttr(FirstPresent(dates), "datetime") ==> d == today
    ensures HasNonEmptyAttr(FirstPresent(dates), "datetime") ==>
      var stamp := FirstPresent(dates).value.attrs["datetime"];
      d <= stamp && 'T' !in d && (|d| < |stamp| ==> stamp[|d|] == 'T')
  {
    var e := FirstPresent(dates);
    if HasNonEmptyAttr(e, "datetime") then BeforeFirst(e.value.attrs["datetime"], 'T') else today
  }

  /** The first author element's text, else "Unknown". */
  function Author(authors: seq<Option<Element>>): (a: string)
    ensures FirstPresent(authors).None? ==> a == "Unknown"
    ensures FirstPresent(authors).Some? ==> a == FirstPresent(authors).value.text
  {
    match FirstPresent(authors)
    case Some(e) => e.text
    case None => "Unknown"
  }

  /** The tag list: each non-empty tag text, without one leading '#'. */
  function Tags(elems: seq<Element>): (r: seq<string>)
    ensures |r| <= |elems|
    decreases |elems|
  {
    if elems == [] then []
    else
      var init := Tags(elems[..|elems| - 1]);
      var text := elems[|elems| - 1].text;
      if text != "" && StartsWith(text, "#") then init + [text[1..]]
      else if text != "" then init + [text]
      else init
  }

  /** Tags keep the order of the tag elements. */
  lemma {:induction false} TagsAppend(a: seq<Element>, b: seq<Element>)
    ensures Tags(a + b) == Tags(a) + Tags(b)
    decreases |b|
  {
    if b == [] {
      assert a + b == a;
    } else {
      var b' := b[..|b| - 1];
      assert (a + b)[..|a + b| - 1] == a + b';
      TagsAppend(a, b');
    }
  }

  /** An empty tag text is dropped, and exactly one leading '#' is removed. */
  lemma TagsOfOne(e: Element)
    ensures e.text == "" ==> Tags([e]) == []
    ensures forall t :: e.text == "#" + t ==> Tags([e]) == [t]
    ensures e.text != "" && e.text[0] != '#' ==> Tags([e]) == [e.text]
  {
    assert [e][..0] == [];
    forall t | e.text == "#" + t ensures Tags([e]) == [t] {
      assert e.text[1..] == t;
    }
  }

  /** The tag loop of `scrape`. */
  method CollectTags(tagElements: seq<Element>) returns (tags: seq<string>)
    ensures tags == Tags(tagElements)
  {
    tags := [];
    for i := 0 to |tagElements|
      invariant tags == Tags(tagElements[..i])
    {
      var tagText := tagElements[i].text;
      assert tagElements[..i + 1][..i] == tagElements[..i];
      if tagText != "" && StartsWith(tagText, "#") {
        tags := tags + [tagText[1..]];
      } else if tagText != "" {
        tags := tags + [tagText];
      }
    }
    assert tagElements[..|tagElements|] == tagElements;
  }

  /** The record for one story card; `None` when the card is skipped for a
      missing title element, link element or `href`. */
  function StoryRecord(item: StoryItem, today: string): (r: Option<Record>)
    ensures r.Some? <==>
      FirstPresent(item.titles).Some? && FirstPresent(item.links).Some?
      && "href" in FirstPresent(item.links).value.attrs
    ensures r.Some? ==>
      r.value.Keys == {"title", "link", "source", "date", "author", "tags"}
      && r.value["title"] == Str(FirstPresent(item.titles).value.text)
      && r.value["source"] == Str("Dev.to")
      && r.value["link"].Str? && StartsWith(r.value["link"].s, "http")
  {
    var titleElement := FirstPresent(item.titles);
    var linkElement := FirstPresent(item.links);
    if titleElement.None? || linkElement.None? || "href" !in linkElement.value.attrs then None
    else
      var link := AbsoluteLink(BaseUrl, linkElement.value.attrs["href"]);
      AbsoluteLinkIsAbsolute(BaseUrl, linkElement.value.attrs["href"]);
      Some(map["title" := Str(titleElement.value.text), "link" := Str(link),
               "source" := Str("Dev.to"), "date" := Str(PubDate(item.dates, today)),
               "author" := Str(Author(item.authors)), "tags" := Strs(Tags(item.tags))])
  }

  /** A Dev.to record with an absolute link. */
  predicate IsDevToRecord(a: Record) {
    "source" in a && a["source"] == Str("Dev.to")
    && "link" in a && a["link"].Str? && StartsWith(a["link"].s, "http")
  }

  /** The records of the processed cards, in order, skipped cards left out. */
  function Stories(items: seq<StoryItem>, today: string): (r: seq<Record>)
    ensures |r| <= |items|
    decreases |items|
  {
    if items == [] then []
    else
      var init := Stories(items[..|items| - 1], today);
      match StoryRecord(items[|items| - 1], today)
      case Some(a) => init + [a]
      case None => init
  }

  /** Every record is a Dev.to record with an absolute link. */
  lemma {:induction false} StoriesRecords(items: seq<StoryItem>, today: string)
    ensures forall a | a in Stories(items, today) :: IsDevToRecord(a)
    decreases |items|
  {
    if items != [] {
      StoriesRecords(items[..|items| - 1], today);
    }
  }

  /** What `scrape` returns: nothing when the request raised, the status is
      not 200 or every card selector found nothing; otherwise the records of
      the first `limit` cards of the first non-empty selection. */
  function ScrapeResult(response: Option<Response<seq<seq<StoryItem>>>>, limit: int, today: string)
    : (r: seq<Record>)
    ensures response.None? || response.value.status != 200 ==> r == []
    ensures response.Some? && FirstNonEmpty(response.value.page) == [] ==> r == []
    ensures 0 <= limit ==> |r| <= limit
    ensures forall a | a in r :: IsDevToRecord(a)
  {
    if response.None? || response.value.status != 200 then []
    else
      var elements := FirstNonEmpty(response.value.page);
      if elements == [] then []
      else
        StoriesRecords(PyTake(elements, limit), today);
        Stories(PyTake(elements, limit), today)
  }

  lemma StoriesSnoc(items: seq<StoryItem>, i: nat, today: string)
    requires i < |items|
    ensures Stories(items[..i + 1], today) ==
      match StoryRecord(items[i], today)
      case Some(a) => Stories(items[..i], today) + [a]
      case None => Stories(items[..i], today)
  {
    assert items[..i + 1][..i] == items[..i];
  }

  /** `DevToScraper.scrape`; the pauses between cards are left out. */
  method Scrape(response: Option<Response<seq<seq<StoryItem>>>>, limit: int, today: string)
    returns (articles: seq<Record>)
    ensures articles == ScrapeResult(response, limit, today)
  {
    if response.None? {
      return [];
    }
    if response.value.status != 200 {
      return [];
    }
    articles := [];
    var articleElements := FirstNonEmpty(response.value.page);
    if articleElements == [] {
      return [];
    }
    var batch := PyTake(articleElements, limit);
    for i := 0 to |batch|
      invariant articles == Stories(batch[..i], today)
    {
      var item := batch[i];
      StoriesSnoc(batch, i, today);
      var titleElement := FirstPresent(item.titles);
      if titleElement.None? {
        continue;
      }
      var title := titleElement.value.text;
      var linkElement := FirstPresent(item.links);
      if linkElement.None? || "href" !in linkElement.value.attrs {
        continue;
      }
      var link := linkElement.value.attrs["href"];
      if !StartsWith(link, "http") {
        link := BaseUrl + link;
      }
      var dateElement := FirstPresent(item.dates);
      var pubDate;
      if HasNonEmptyAttr(dateElement, "datetime") {
        pubDate := BeforeFirst(dateElement.value.attrs["datetime"], 'T');
      } else {
        pubDate := today;
      }
      var authorElement := FirstPresent(item.authors);
      var author := if authorElement.Some? then authorElement.value.text else "Unknown";
      var tags := CollectTags(item.tags);
      articles := articles + [map["title" := Str(title), "link" := Str(link), "source" := Str("Dev.to"),
                                  "date" := Str(pubDate), "author" := Str(author), "tags" := Strs(tags)]];
    }
    assert batch[..|batch|] == batch;
  }

  /** `full_content[:300] + ("..." if len(full_content) > 300 else "")`. */
  function Excerpt(content: string): (r: string)
    ensures |r| <= 303
    ensures |content| <= 300 ==> r == content
    ensures |content| > 300 ==> |r| == 303 && r[..300] == content[..300] && r[300..] == "..."
  {
    if |content| > 300 then content[..300] + "..." else content
  }

  /** An article page: what the four content selectors found, and the
      reading-time element. */
  datatype ArticlePage = ArticlePage(contents: seq<Option<Element>>, readingTime: Option<Element>)

  /** `DevToScraper.parse_article`: the article with `content` and `summary`
      (and `reading_time` on a fetched page) added; every other key keeps its
      value. A missing `link` or a raised request gives the error text. */
  function ParseArticle(article: Record, response: Option<Response<ArticlePage>>): (r: Record)
    ensures forall k | k in article && k !in {"content", "summary", "reading_time"} :: k in r && r[k] == article[k]
    ensures "content" in r && "summary" in r && r["summary"].Str?
    ensures "link" !in article || response.None? ==>
      r == article["content" := Str("Error fetching content")]["summary" := Str("Error fetching content")]
    ensures "link" in article && response.Some? && response.value.status != 200 ==>
      r == article["content" := Str("Could not fetch content")]["summary" := Str("Could not fetch content")]
    ensures "link" in article && response.Some? && response.value.status == 200 ==>
      "reading_time" in r && |r["summary"].s| <= 303
      && (FirstPresent(response.value.page.contents).None? ==>
            r["content"] == Str("No content found") && r["summary"] == Str("No content found"))
    ensures "link" in article && response.Some? && response.value.status == 200
            && FirstPresent(response.value.page.contents).Some? ==>
      var text := FirstPresent(response.value.page.contents).value.text;
      r["content"] == Str(text) && r["summary"] == Str(Excerpt(text))
    ensures "link" in article && response.Some? && response.value.status == 200 ==>
      "reading_time" in r
      && (response.value.page.readingTime.Some? ==> r["reading_time"] == Str(response.value.page.readingTime.value.text))
      && (response.value.page.readingTime.None? ==> r["reading_time"] == Str("Unknown read time"))
    ensures "link" !in article || response.None? || response.value.status != 200 ==>
      "reading_time" !in article ==> "reading_time" !in r
  {
    if "link" !in article || response.None? then
      article["content" := Str("Error fetching content")]["summary" := Str("Error fetching content")]
    else if response.value.status != 200 then
      article["content" := Str("Could not fetch content")]["summary" := Str("Could not fetch content")]
    else
      var page := response.value.page;
      var contentElement := FirstPresent(page.contents);
      var fullContent := if contentElement.Some? then contentElement.value.text else "No content found";
      var summary := if contentElement.Some? then Excerpt(fullContent) else "No content found";
      var readingTime := if page.readingTime.Some? then page.readingTime.value.text else "Unknown read time";
      article["content" := Str(fullContent)]["summary" := Str(summary)]["reading_time" := Str(readingTime)]
  }
}
