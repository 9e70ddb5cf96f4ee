/** src/scraper/github_trending_scraper.py: the URL, the repository-box
    cascade and the record shaping of `scrape`. A repository box is given as
    what its selector cascades found. */
module GitHubTrendingScraper {
  import opened Text
  import opened Values
  import opened Seqs
  import opened Selectors
  import opened Links

  const BaseUrl := "https://github.com/trending"
  const SiteUrl := "https://github.com"

  /** The trending URL, filtered by language when one is given. */
  function TrendingUrl(language: Option<string>): (url: string)
    ensures language.Some? && language.value != "" ==> url == BaseUrl + "?l=" + language.value
    ensures !(language.Some? && language.value != "") ==> url == BaseUrl
  {
    if language.Some? && language.value != "" then BaseUrl + "?l=" + language.value else BaseUrl
  }

  /** One repository box: what the three link selectors, the two description
      selectors, the three star selectors and the two language selectors
      found. */
  datatype RepoBox = RepoBox(
    links: seq<Option<Element>>,
    descriptions: seq<Option<Element>>,
    stars: seq<Option<Element>>,
    languages: seq<Option<Element>>)

  /** The title: newlines to spaces, stripped, whitespace runs collapsed. */
  function NormalizeTitle(text: string): string {
    CollapseSpaces(Strip(ReplaceChar(text, '\n', ' ')))
  }

  /** The title is single-spaced with no outer whitespace, and keeps the
      words of the element text. */
  lemma NormalizeTitleShape(text: string)
    ensures SingleSpaced(NormalizeTitle(text)) && NoOuterSpace(NormalizeTitle(text))
    ensures Words(NormalizeTitle(text)) == Words(Strip(ReplaceChar(text, '\n', ' ')))
  {
    var title := Strip(ReplaceChar(text, '\n', ' '));
    WordsOfCollapse(title);
    SingleSpacedNoOuterSpace(CollapseSpaces(title));
  }

  /** Normalising a normalised title changes nothing. */
  lemma NormalizeTitleIdempotent(text: string)
    ensures NormalizeTitle(NormalizeTitle(text)) == NormalizeTitle(text)
  {
    var t := NormalizeTitle(text);
    var stripped := Strip(ReplaceChar(text, '\n', ' '));
    NormalizeTitleShape(text);
    NoNewlineUnchanged(t);
    StripNoOuterSpace(t);
    CollapseSpacesIdempotent(stripped);
  }

  /** A single-spaced string has no newline for `replace` to change. */
  lemma NoNewlineUnchanged(t: string)
    requires SingleSpaced(t)
    ensures ReplaceChar(t, '\n', ' ') == t
  {
    forall k | 0 <= k < |t| ensures t[k] != '\n' {
      assert IsSpace('\n');
    }
  }

  function TextOr(e: Option<Element>, default: string): (v: string)
    ensures e.None? ==> v == default
    ensures e.Some? ==> v == e.value.text
  {
    if e.Some? then e.value.text else default
  }

  /** The record for one box; `None` when it is skipped: no link element, or
      one without `href` (its `KeyError` is caught for that box). */
  function RepoRecord(box: RepoBox): (r: Option<Record>)
    ensures r.Some? <==> FirstPresent(box.links).Some? && "href" in FirstPresent(box.links).value.attrs
  {
    var linkElement := FirstPresent(box.links);
    if linkElement.None? || "href" !in linkElement.value.attrs then None
    else
      var href := linkElement.value.attrs["href"];
      var language := FirstPresent(box.languages);
      Some(map["title" := Str(NormalizeTitle(linkElement.value.text)),
               "description" := Str(TextOr(FirstPresent(box.descriptions), "No description")),
               "stars" := Str(TextOr(FirstPresent(box.stars), "0")),
               "link" := Str(AbsoluteLink(SiteUrl, href)),
               "source" := Str("GitHub Trending"),
               "language" := if language.Some? then Str(language.value.text) else Null])
  }

  /** A kept record has the normalised title of the link element and an
      absolute link. */
  lemma RepoRecordShape(box: RepoBox)
    ensures var r := RepoRecord(box);
      r.Some? ==>
        r.value["source"] == Str("GitHub Trending")
        && r.value["title"] == Str(NormalizeTitle(FirstPresent(box.links).value.text))
        && r.value["link"].Str? && StartsWith(r.value["link"].s, "http")
  {
    var linkElement := FirstPresent(box.links);
    if linkElement.Some? && "href" in linkElement.value.attrs {
      AbsoluteLinkIsAbsolute(SiteUrl, linkElement.value.attrs["href"]);
    }
  }

  /** Missing description, stars and language elements give "No
      description", "0" and `None`. */
  lemma RepoRecordDefaults(box: RepoBox)
    ensures var r := RepoRecord(box);
      r.Some? ==>
        (FirstPresent(box.descriptions).None? ==> r.value["description"] == Str("No description"))
        && (FirstPresent(box.stars).None? ==> r.value["stars"] == Str("0"))
        && (FirstPresent(box.languages).None? ==> r.value["language"] == Null)
  {
  }

  /** A kept record has exactly the six keys `scrape` writes. */
  lemma RepoRecordKeys(box: RepoBox)
    ensures var r := RepoRecord(box);
      r.Some? ==> r.value.Keys == {"title", "description", "stars", "link", "source", "language"}
  {
  }

  /** A GitHub Trending record with a text title and an absolute link. */
  predicate IsRepoRecord(a: Record) {
    "source" in a && a["source"] == Str("GitHub Trending")
    && "title" in a && a["title"].Str?
    && "link" in a && a["link"].Str? && StartsWith(a["link"].s, "http")
  }

  /** The records of the processed boxes, in order, skipped boxes left out. */
  function Repos(boxes: seq<RepoBox>): (r: seq<Record>)
    ensures |r| <= |boxes|
    decreases |boxes|
  {
    if boxes == [] then []
    else
      var init := Repos(boxes[..|boxes| - 1]);
      match RepoRecord(boxes[|boxes| - 1])
      case Some(a) => init + [a]
      case None => init
  }

  /** The record's title is single-spaced with no outer whitespace. */
  predicate HasNormalTitle(a: Record) {
    "title" in a && a["title"].Str? && SingleSpaced(a["title"].s) && NoOuterSpace(a["title"].s)
  }

  lemma RepoRecordTitleNormal(box: RepoBox)
    ensures RepoRecord(box).Some? ==> HasNormalTitle(RepoRecord(box).value)
  {
    if RepoRecord(box).Some? {
      RepoRecordShape(box);
      NormalizeTitleShape(FirstPresent(box.links).value.text);
    }
  }

  /** Every record is a GitHub Trending record with an absolute link and a
      normalised title. */
  lemma {:induction false} ReposRecords(boxes: seq<RepoBox>)
    ensures forall a | a in Repos(boxes) :: IsRepoRecord(a) && HasNormalTitle(a)
    decreases |boxes|
  {
    if boxes != [] {
      ReposRecords(boxes[..|boxes| - 1]);
      RepoRecordShape(boxes[|boxes| - 1]);
      RepoRecordTitleNormal(boxes[|boxes| - 1]);
    }
  }

  /** What `scrape` returns: nothing when the request raised, the status is
      not 200 or every box selector found nothing; otherwise the records of
      the first `limit` boxes of the first non-empty selection. */
  function ScrapeResult(response: Option<Response<seq<seq<RepoBox>>>>, limit: int): (r: seq<Record>)
    ensures response.None? || response.value.status != 200 ==> r == []
    ensures response.Some? && FirstNonEmpty(response.value.page) == [] ==> r == []
    ensures 0 <= limit ==> |r| <= limit
    ensures forall a | a in r :: IsRepoRecord(a)
  {
    if response.None? || response.value.status != 200 then []
    else
      var boxes := FirstNonEmpty(response.value.page);
      if boxes == [] then []
      else
        ReposRecords(PyTake(boxes, limit));
        Repos(PyTake(boxes, limit))
  }

  lemma ReposSnoc(boxes: seq<RepoBox>, i: nat)
    requires i < |boxes|
    ensures Repos(boxes[..i + 1]) ==
      match RepoRecord(boxes[i])
      case Some(a) => Repos(boxes[..i]) + [a]
      case None => Repos(boxes[..i])
  {
    assert boxes[..i + 1][..i] == boxes[..i];
  }

  /** `GitHubTrendingScraper.scrape`, given the response to the request for
      `TrendingUrl(language)`. */
  method Scrape(response: Option<Response<seq<seq<RepoBox>>>>, limit: int) returns (repos: seq<Record>)
    ensures repos == ScrapeResult(response, limit)
  {
    if response.None? || response.value.status != 200 {
      return [];
    }
    repos := [];
    var repositoryBoxes := FirstNonEmpty(response.value.page);
    if repositoryBoxes == [] {
      return [];
    }
    var batch := PyTake(repositoryBoxes, limit);
    for i := 0 to |batch|
      invariant repos == Repos(batch[..i])
    {
      var repo := batch[i];
      ReposSnoc(batch, i);
      var repoLinkElement := FirstPresent(repo.links);
      if repoLinkElement.None? || "href" !in repoLinkElement.value.attrs {
        continue;
      }
      var title := NormalizeTitle(repoLinkElement.value.text);
      var link := repoLinkElement.value.attrs["href"];
      if !StartsWith(link, "http") {
        link := SiteUrl + link;
      }
      var descriptionElement := FirstPresent(repo.descriptions);
      var description := if descriptionElement.Some? then descriptionElement.value.text else "No description";
      var starsElement := FirstPresent(repo.stars);
      var stars := if starsElement.Some? then starsElement.value.text else "0";
      var languageElement := FirstPresent(repo.languages);
      var primaryLanguage := if languageElement.Some? then Str(languageElement.value.text) else Null;
      repos := repos + [map["title" := Str(title), "description" := Str(description), "stars" := Str(stars),
                            "link" := Str(link), "source" := Str("GitHub Trending"),
                            "language" := primaryLanguage]];
    }
    assert batch[..|batch|] == batch;
  }
}
