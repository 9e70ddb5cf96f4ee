# tech-news-curator: a Dafny model of the curation core

tech-news-curator collects tech stories from Hacker News, Dev.to, GitHub Trending,
Reddit and arXiv. It puts every story into one article shape and drops duplicates.
It asks an OpenAI model for a short summary of each story. It then renders the
summaries as a Markdown digest and as the plain-text and HTML bodies of an email.

This project models the deterministic core of that pipeline in Dafny 4.11.
Scraped pages are given as the values the CSS selectors would have found, so
BeautifulSoup is not modelled. The oracles become parameters:

- the model call is a `Client` function;
- a fetched page is an `Option<Response>`, where `None` means the request raised;
- the clock is a date string;
- SMTP delivery and file writing are success booleans.

Modules, one per source file, plus shared helpers:

- `Text`: ASCII string functions such as `lower`, `strip`, `split`/`join`,
  `replace`, and decimal rendering of numbers.
- `Values`: Python dictionaries as `map<string, Value>`, with `dict.get`,
  truthiness and `str()`.
- `Seqs`: the subsequence relation, string concatenation, and Python slicing
  `[:limit]`.
- `Selectors`: parsed elements, plus the `select(...) or select(...)` and
  `select_one(...) or ...` cascades.
- `Links`: the "prefix a relative link with the site URL" rule the scrapers share.
- `Curator` (src/main.py): article standardisation, the duplicate filter, and
  the email-enable check of the configuration.
- `Summarizer` (src/summarizer/summarizer.py): `summarize` and
  `summarize_articles`.
- `MarkdownStorage` (src/storage/markdown_storage.py): `create_digest`,
  `_format_anchor` and `save_digest`.
- `EmailDigest` (src/storage/email_digest.py): `create_plain_digest`,
  `create_html_digest`, `create_digest`, and the guards and result of `send_digest`.
- `RedditScraper`, `DevToScraper`, `GitHubTrendingScraper`, `HackerNewsScraper`:
  the record-shaping logic of each scraper.

Loops in the source are Dafny methods with loop invariants. Each method is proved
equal to a specification function, and the properties are proved about that
function:

- `FilterDuplicates`;
- `SummarizeArticles`;
- the digest builders;
- `CollectTags`;
- the four scrape loops.

Two places keep the source's in-place updates as Dafny classes:

- `TechNewsConfiguration` holds the validated email flag.
- `ArticleDict` is the dictionary that `_extract_metadata` updates.

Behaviour worth knowing, as the code has it:

- `summarize` sends the whole text in one request. It does no chunking
  and no length budgeting.
- Hacker News front-page records always carry all seven keys. The score
  defaults to `Unknown`, and the author and the date default to `None`.
- A Hacker News title anchor without `href` raises `KeyError`. Only the
  outer `try` of `scrape` catches it, so the whole scrape returns `[]`.
- The Hacker News limit is checked after each append, so a limit below 1
  still yields one record.

## Model

| member | source | states |
|---|---|---|
| Curator.StandardizeArticle | src/main.py:105-112 | the result has exactly the six canonical keys; title defaults to "No Title", link falls back to `url` and then to "", source is the given name, date defaults to today, summary to "", and `original` is the unmodified input |
| Curator.StandardizedIsFingerprintable | src/main.py:105-107 | an article whose title and link (or url) are text standardises into one the duplicate filter can fingerprint |
| Curator.SeenSnoc | src/main.py:137-139 | keeping an article adds its title fingerprint to the seen titles, and its link fingerprint to the seen links only when that is non-empty |
| Curator.Dedup | src/main.py:125-142 | every kept article comes from the input |
| Curator.DedupStep | src/main.py:133-140 | article i is dropped exactly when an earlier kept article has the same lower-cased stripped title or the same non-empty stripped link; an empty link never causes a drop |
| Curator.DedupIsSubsequence | src/main.py:125-142 | the output is a subsequence of the input, in input order |
| Curator.DedupFingerprintsDistinct | src/main.py:130-139 | no two kept articles share a title fingerprint or a non-empty link fingerprint |
| Curator.DistinctPrefix | src/main.py:125-142 | dropping the last article of a duplicate-free list leaves a duplicate-free list |
| Curator.DistinctLastIsNew | src/main.py:134 | the last article of a duplicate-free list collides with none before it |
| Curator.DedupOfDistinct | src/main.py:125-142 | a duplicate-free input passes through unchanged |
| Curator.DedupIdempotent | src/main.py:125-142 | filtering twice equals filtering once |
| Curator.DedupFoldsTitleCase | src/main.py:130 | titles differing only in case collide ("X" then "x": the second is dropped) |
| Curator.DedupKeepsLinkCase | src/main.py:131 | links are compared case-sensitively ("http://a" and "http://A" both survive) |
| Curator.FilterDuplicates | src/main.py:125-142 | the loop over the two seen-sets and the kept list returns exactly `Dedup(articles)`; invariant: the sets are the fingerprints of the kept articles |
| Curator.TechNewsConfiguration.ValidateConfig | src/main.py:80-87 | email stays enabled exactly when it was enabled, both SMTP credentials are set and non-empty, and some recipient is non-empty; it is never switched on |
| Curator.TechNewsConfiguration.constructor | src/main.py:67 | the settings are stored and then validated |
| Summarizer.ChatRequest | src/summarizer/summarizer.py:46-53 | the request uses model gpt-4o, at most 150 tokens, and the user prompt "Summarize the following text:\n\n" followed by the text |
| Summarizer.Summarize | src/summarizer/summarizer.py:41-59 | without a client: the fixed "Summary unavailable: API not configured"; a raising call: "Summary unavailable: " + error text; otherwise the stripped reply, which has no outer whitespace |
| Summarizer.PromptText | src/summarizer/summarizer.py:81-83 | the text begins with the title as `str` renders it; it is longer than the title exactly when a truthy summary is present, and then the rest is "\n\n" + summary |
| Summarizer.DigestEntry | src/summarizer/summarizer.py:89-95 | an entry has exactly title, summary, link, source and date; it copies the title, carries the given summary, and defaults link to "", source to "Unknown" and date to "" |
| Summarizer.TextToSummarize | src/summarizer/summarizer.py:81-83 | the loop assembles exactly `PromptText` of the article |
| Summarizer.SummarizeArticles | src/summarizer/summarizer.py:72-95 | [] for no articles; otherwise one entry per article in the same order, whose summary is what `summarize` returns for that article's text |
| MarkdownStorage.KeepAnchorChars | src/storage/markdown_storage.py:135 | keeps only letters, digits and '-', each taken from the input, never lengthening it |
| MarkdownStorage.FormatAnchor | src/storage/markdown_storage.py:133-136 | the anchor holds only lower-case letters, digits and '-' (no spaces) and is no longer than the text |
| MarkdownStorage.KeepAnchorCharsOfAnchor | src/storage/markdown_storage.py:135 | a string of anchor characters passes the character filter unchanged |
| MarkdownStorage.FormatAnchorOfAnchor | src/storage/markdown_storage.py:133-136 | a string of anchor characters is its own anchor |
| MarkdownStorage.FormatAnchorIdempotent | src/storage/markdown_storage.py:133-136 | formatting an anchor twice equals formatting it once |
| MarkdownStorage.KeepAnchorCharsAppend | src/storage/markdown_storage.py:135 | the filter works character by character: it distributes over concatenation |
| MarkdownStorage.FormatAnchorAppend | src/storage/markdown_storage.py:133-136 | the anchor of a concatenation is the concatenation of the anchors |
| MarkdownStorage.FormatAnchorChar | src/storage/markdown_storage.py:133-135 | a letter or digit becomes its lower-case form, a space or '-' becomes '-', and anything else disappears |
| MarkdownStorage.TocLinkTargetsEntryHeading | src/storage/markdown_storage.py:49-57 | the anchor of heading "i. title" is "i-" followed by the anchor of the title, which is what table-of-contents line i links to |
| MarkdownStorage.TocLine | src/storage/markdown_storage.py:47-49 | table-of-contents line i starts with "i. [" |
| MarkdownStorage.TocLines | src/storage/markdown_storage.py:47-49 | one table-of-contents line per summary |
| MarkdownStorage.DateLine | src/storage/markdown_storage.py:71-73 | the date line is emitted exactly when the date is present and truthy |
| MarkdownStorage.EntryShape | src/storage/markdown_storage.py:53-80 | entry i starts with "## i. " + title (default 'Untitled Article') and ends with the "---" separator |
| MarkdownStorage.EntryShowsLink | src/storage/markdown_storage.py:64-68 | an entry shows "[link](link)" for a non-empty link and "[No link available]()" otherwise |
| MarkdownStorage.EntryShowsSource | src/storage/markdown_storage.py:60-61 | an entry shows "**Source**: " + the source, and "**Source**: Unknown Source" when the summary has none |
| MarkdownStorage.EntryEndsWithSummary | src/storage/markdown_storage.py:76-80 | an entry ends with the summary text, a blank line and the separator; the text is "No summary available." when the summary has none |
| MarkdownStorage.EntryShowsDate | src/storage/markdown_storage.py:71-73 | an entry with a truthy date shows "**Date**: " + date |
| MarkdownStorage.Entries | src/storage/markdown_storage.py:53 | one entry per summary |
| MarkdownStorage.EntriesNumbered | src/storage/markdown_storage.py:53-57 | entries follow the input order: entry k is headed "## (k+1). " + the title of summary k |
| MarkdownStorage.TocIffMoreThanFive | src/storage/markdown_storage.py:41-50 | the digest is just the header and the entries exactly when there are at most five summaries; otherwise a table of contents sits between them |
| MarkdownStorage.RenderEntry | src/storage/markdown_storage.py:54-80 | the loop body appends exactly entry i |
| MarkdownStorage.FormatTocLine | src/storage/markdown_storage.py:48-49 | the loop formats line i exactly as `TocLine` specifies |
| MarkdownStorage.RenderTocLines | src/storage/markdown_storage.py:47-49 | the loop over the summaries builds exactly their numbered table-of-contents lines, in order |
| MarkdownStorage.RenderToc | src/storage/markdown_storage.py:45-50 | the table-of-contents loop builds exactly the table-of-contents section |
| MarkdownStorage.CreateDigest | src/storage/markdown_storage.py:29-82 | the accumulated content equals the digest specification (header, optional table of contents, numbered entries) |
| MarkdownStorage.DigestFilename | src/storage/markdown_storage.py:100-101 | a non-empty given name is used; otherwise "tech_digest_" + date stamp + ".md" |
| MarkdownStorage.SaveDigest | src/storage/markdown_storage.py:95-119 | "" and nothing written for an empty summary list, or when more than five summaries include a non-text title (the `AttributeError` of `_format_anchor` is caught); otherwise the digest is what is written, and the path is returned on success and "" on a failed write |
| EmailDigest.Title | src/storage/email_digest.py:69 | the title as given when present, otherwise "No Title" |
| EmailDigest.SourceName | src/storage/email_digest.py:70 | the source as given when present, otherwise "Unknown Source" |
| EmailDigest.LinkOf | src/storage/email_digest.py:71 | the link as given when present, otherwise "No link available" |
| EmailDigest.SummaryText | src/storage/email_digest.py:72 | the summary text as given when present, otherwise "" |
| EmailDigest.PlainBlock | src/storage/email_digest.py:74-78 | a block starts with "**" + title + "**" and ends with "---\n\n" |
| EmailDigest.PlainBlocks | src/storage/email_digest.py:68 | one block per summary |
| EmailDigest.PlainBlocksAppend | src/storage/email_digest.py:68-78 | the blocks of a list are those of its parts, in order |
| EmailDigest.PlainDigestSnoc | src/storage/email_digest.py:66-78 | adding a summary at the end appends exactly its block to the digest |
| EmailDigest.CreatePlainDigest | src/storage/email_digest.py:55-80 | the accumulated text equals the plain digest: "Daily Tech News Digest - " + date, then one block per summary in input order |
| EmailDigest.HtmlArticleShape | src/storage/email_digest.py:233-242 | an article card begins with the title followed by the source |
| EmailDigest.HtmlArticles | src/storage/email_digest.py:227 | one card per summary |
| EmailDigest.HtmlBlocks | src/storage/email_digest.py:227-251 | one block per summary |
| EmailDigest.BlocksWithSeparator | src/storage/email_digest.py:245-251 | with more than five summaries, only the third block carries the separator |
| EmailDigest.SeparatorAfterThird | src/storage/email_digest.py:245-251 | with more than five summaries, the article section is the first three cards, the "More trending stories" separator once, then the remaining cards |
| EmailDigest.NoSeparatorUpToFive | src/storage/email_digest.py:245 | with at most five summaries, the article section is the cards alone |
| EmailDigest.FormatCard | src/storage/email_digest.py:227-242 | the loop formats each card exactly as `HtmlArticle` specifies |
| EmailDigest.CreateHtmlDigest | src/storage/email_digest.py:82-275 | the accumulated HTML equals head + blocks + footer for the given template and date |
| EmailDigest.CreateDigest | src/storage/email_digest.py:39-53 | returns the pair (plain digest, HTML digest) |
| EmailDigest.SendDigest | src/storage/email_digest.py:288-297 | empty recipients or empty summaries give False before any message is built; otherwise both bodies are built and the result is the delivery outcome |
| RedditScraper.FilterArticles | src/scraper/reddit_scraper.py:97 | sound (every kept article's lower-cased title contains the lower-cased keyword) and exact (every such input article is kept) |
| RedditScraper.FilterIsSubsequence | src/scraper/reddit_scraper.py:97 | the filtered list is a subsequence of the input, in order |
| RedditScraper.FilterEmptyKeywordKeepsAll | src/scraper/reddit_scraper.py:97 | an empty keyword keeps every article |
| RedditScraper.FilterOfMatching | src/scraper/reddit_scraper.py:97 | a list whose every title matches passes unchanged |
| RedditScraper.FilterAppend | src/scraper/reddit_scraper.py:97 | the filter works article by article: filtering a + b is filtering a followed by filtering b |
| RedditScraper.FilterIdempotent | src/scraper/reddit_scraper.py:97 | filtering twice by the same keyword equals filtering once |
| RedditScraper.PostRecord | src/scraper/reddit_scraper.py:65-72 | a post record has the six keys, subreddit as given, and source "Reddit r/" + subreddit |
| DevToScraper.PubDate | src/scraper/devto_scraper.py:82-90 | the first present date element's `datetime` up to (not including) the first 'T'; today's date when there is no such attribute |
| DevToScraper.Author | src/scraper/devto_scraper.py:93-95 | the first present author element's text, else "Unknown" |
| DevToScraper.Tags | src/scraper/devto_scraper.py:98-105 | no more tags than tag elements |
| DevToScraper.TagsAppend | src/scraper/devto_scraper.py:100-105 | tags keep the order of their elements |
| DevToScraper.TagsOfOne | src/scraper/devto_scraper.py:101-105 | an empty tag text is dropped, one leading '#' is removed, other texts are kept as they are |
| DevToScraper.CollectTags | src/scraper/devto_scraper.py:98-105 | the tag loop returns exactly `Tags` of the elements |
| DevToScraper.StoryRecord | src/scraper/devto_scraper.py:60-114 | an item is skipped exactly when its title cascade or link cascade finds nothing or the link has no `href`; a kept record has the six keys, the title text, source "Dev.to" and an absolute link |
| DevToScraper.Stories | src/scraper/devto_scraper.py:58-114 | at most one record per item |
| DevToScraper.StoriesRecords | src/scraper/devto_scraper.py:107-114 | every scraped record has source "Dev.to" and an absolute link |
| DevToScraper.ScrapeResult | src/scraper/devto_scraper.py:41-58 | [] on a failed request, a non-200 status, or when every article selector finds nothing; at most `limit` records for a non-negative limit |
| DevToScraper.StoriesSnoc | src/scraper/devto_scraper.py:58-114 | processing one more item appends its record or skips it |
| DevToScraper.Scrape | src/scraper/devto_scraper.py:39-124 | the scrape loop returns exactly `ScrapeResult` |
| DevToScraper.Excerpt | src/scraper/devto_scraper.py:158 | the content itself when it has at most 300 characters; otherwise its first 300 characters and "..."; never longer than 303 |
| DevToScraper.ParseArticle | src/scraper/devto_scraper.py:140-177 | other keys are kept; a failed request gives "Error fetching content" for content and summary, a non-200 status "Could not fetch content", no content container "No content found"; otherwise content is the container's text and summary its 300-character excerpt, and reading_time is the reading-time text or "Unknown read time" |
| GitHubTrendingScraper.TrendingUrl | src/scraper/github_trending_scraper.py:37-39 | the base URL + "?l=" + language for a non-empty language, else the base URL |
| GitHubTrendingScraper.NormalizeTitleShape | src/scraper/github_trending_scraper.py:76-77 | the title has no leading or trailing whitespace, is single-spaced, and keeps the words of the stripped text |
| GitHubTrendingScraper.NormalizeTitleIdempotent | src/scraper/github_trending_scraper.py:76-77 | normalising a title twice equals normalising it once |
| GitHubTrendingScraper.NoNewlineUnchanged | src/scraper/github_trending_scraper.py:76 | a single-spaced title has no newline to replace |
| GitHubTrendingScraper.TextOr | src/scraper/github_trending_scraper.py:83-95 | an element's text, or the default when the cascade found nothing |
| GitHubTrendingScraper.RepoRecord | src/scraper/github_trending_scraper.py:67-104 | a box is skipped exactly when no link element is found or it has no `href` |
| GitHubTrendingScraper.RepoRecordShape | src/scraper/github_trending_scraper.py:76-104 | a kept record has source "GitHub Trending", the normalised title of the link element and an absolute link |
| GitHubTrendingScraper.RepoRecordDefaults | src/scraper/github_trending_scraper.py:83-95 | description defaults to "No description", stars to "0", language to None |
| GitHubTrendingScraper.RepoRecordKeys | src/scraper/github_trending_scraper.py:97-104 | a kept record has exactly the six keys title, description, stars, link, source and language |
| GitHubTrendingScraper.Repos | src/scraper/github_trending_scraper.py:65-104 | at most one record per box |
| GitHubTrendingScraper.RepoRecordTitleNormal | src/scraper/github_trending_scraper.py:76-77 | a kept record's title is normalised |
| GitHubTrendingScraper.ReposRecords | src/scraper/github_trending_scraper.py:65-104 | every scraped record has source "GitHub Trending", a text title that is normalised, and an absolute link |
| GitHubTrendingScraper.ScrapeResult | src/scraper/github_trending_scraper.py:44-65 | [] on a failed request, a non-200 status, or when every box selector finds nothing; at most `limit` records for a non-negative limit |
| GitHubTrendingScraper.ReposSnoc | src/scraper/github_trending_scraper.py:65-104 | processing one more box appends its record or skips it |
| GitHubTrendingScraper.Scrape | src/scraper/github_trending_scraper.py:36-104 | the scrape loop returns exactly `ScrapeResult` |
| HackerNewsScraper.CommentsLink | src/scraper/hacker_news_scraper.py:58-59 | base URL + "item?id=" + id for a non-empty id, else None |
| HackerNewsScraper.AgeDate | src/scraper/hacker_news_scraper.py:81-88 | a date exactly when the age element has a non-empty `title`; then the parsed timestamp, or today's date when it does not parse |
| HackerNewsScraper.FrontRecord | src/scraper/hacker_news_scraper.py:62-98 | a front-page record has the seven keys, source "Hacker News", the comments link, and score 'Unknown' when no score element is found |
| HackerNewsScraper.MetadataUpdate | src/scraper/hacker_news_scraper.py:177-201 | without a subtext cell the article is unchanged; otherwise only score, author and date may change, the score is always set, and it defaults to 'Unknown' |
| HackerNewsScraper.MetadataUpdateIdempotent | src/scraper/hacker_news_scraper.py:177-201 | extracting the metadata twice equals extracting it once |
| HackerNewsScraper.FrontMetadataAgrees | src/scraper/hacker_news_scraper.py:63-88 | the metadata `scrape` reads inline equals what `_extract_metadata` writes over the defaults 'Unknown', None and None |
| HackerNewsScraper.RowStep | src/scraper/hacker_news_scraper.py:48-55 | a row is skipped exactly when it has no title anchor, aborts exactly when the anchor has no `href`, and a kept record has an absolute link |
| HackerNewsScraper.CollectBound | src/scraper/hacker_news_scraper.py:90-101 | the list only grows, and since the limit is checked after each append it never exceeds max(limit, 1) |
| HackerNewsScraper.CollectExact | src/scraper/hacker_news_scraper.py:47-101 | when every row has a title anchor with `href`, exactly min(rows, max(limit, 1)) records are returned |
| HackerNewsScraper.CollectRecordsShape | src/scraper/hacker_news_scraper.py:54-98 | every appended record has an absolute link and its feed's source name; front-page records carry a comments link |
| HackerNewsScraper.ScrapeResult | src/scraper/hacker_news_scraper.py:38-42 | [] on a failed request or a non-200 status |
| HackerNewsScraper.ScrapeResultBound | src/scraper/hacker_news_scraper.py:100-101 | never more than max(limit, 1) records |
| HackerNewsScraper.CollectUnfold | src/scraper/hacker_news_scraper.py:47-101 | one loop step: skip, abort, or append and stop at the limit |
| HackerNewsScraper.ArticleDict.ExtractMetadata | src/scraper/hacker_news_scraper.py:169-201 | the in-place update leaves exactly `MetadataUpdate` of the old dictionary |
| HackerNewsScraper.FrontArticle | src/scraper/hacker_news_scraper.py:57-98 | the loop body builds exactly `FrontRecord` for the row |
| HackerNewsScraper.Scrape | src/scraper/hacker_news_scraper.py:26-108 | the front-page loop (skip, absolutise, append, break at the limit; a missing `href` gives []) returns exactly `ScrapeResult` |
| HackerNewsScraper.GetNewest | src/scraper/hacker_news_scraper.py:110-167 | the newest-page loop, building each record and updating it with `_extract_metadata`, returns exactly `ScrapeResult` |
| Links.AbsoluteLink | src/scraper/devto_scraper.py:78-79 | a link starting with "http" is unchanged; any other link is prefixed with the base URL |
| Links.AbsoluteLinkIsAbsolute | src/scraper/github_trending_scraper.py:80-81 | with an http base, the result starts with "http", absolutising is idempotent, and a relative link is the part after the base |
| Selectors.FirstNonEmpty | src/scraper/devto_scraper.py:50 | `select(a) or select(b) or ...`: empty exactly when every candidate is empty, otherwise the first non-empty candidate |
| Selectors.FirstPresent | src/scraper/devto_scraper.py:60-62 | `select_one(a) or select_one(b) or ...`: missing exactly when every candidate is missing, otherwise the first present candidate |
| Values.Get | src/main.py:106 | `dict.get(key, default)`: the value under the key when present, else the default |
| Values.OptStr | src/scraper/hacker_news_scraper.py:86-88 | the date field: Python's `None` for no date, otherwise the date text |
| Seqs.PyTake | src/scraper/devto_scraper.py:58 | `items[:limit]` is a prefix of the items, with Python's length for a negative limit too |
| Seqs.SubsequenceLength | src/main.py:125-142 | a subsequence is never longer than its sequence |
| Seqs.SubsequenceMembers | src/main.py:125-142 | every element of a subsequence is an element of its sequence |
| Text.Lower | src/main.py:130 | `str.lower()` on ASCII: same length, each character lower-cased |
| Text.ReplaceChar | src/scraper/github_trending_scraper.py:76 | `str.replace(a, b)` for single characters: same length, every `a` becomes `b` |
| Text.Strip | src/main.py:130-131 | the stripped text has no leading or trailing whitespace |
| Text.StripBounds | src/main.py:130-131 | the stripped text is a slice of the input with only whitespace before it and after it |
| Text.StripRemovesOnlyOuterSpace | src/main.py:130-131 | `strip()` removes whitespace at both ends and nothing else |
| Text.StripIdempotent | src/main.py:130-131 | stripping twice equals stripping once |
| Text.BeforeFirst | src/scraper/devto_scraper.py:88 | `s.split('T')[0]`: the prefix of the text before the first 'T' |
| Text.TakeWordShape | src/scraper/github_trending_scraper.py:77 | a word taken from the text is a prefix without whitespace, followed by whitespace or the end |
| Text.WordsAreWords | src/scraper/github_trending_scraper.py:77 | every piece `split()` yields is non-empty and has no whitespace |
| Text.WordsCons | src/scraper/github_trending_scraper.py:77 | a word followed by whitespace or the end splits off as the first word |
| Text.WordsOfJoin | src/scraper/github_trending_scraper.py:77 | splitting words joined by single spaces gives the words back |
| Text.CollapseSpaces | src/scraper/github_trending_scraper.py:77 | `' '.join(s.split())` is single-spaced |
| Text.CollapseSpacesIdempotent | src/scraper/github_trending_scraper.py:77 | collapsing twice equals collapsing once |
| Text.WordsOfCollapse | src/scraper/github_trending_scraper.py:77 | collapsing keeps the words |
| Text.NatToString | src/storage/markdown_storage.py:49-57 | the entry number is written as a non-empty string of digits |
| Text.DecimalRoundTrip | src/storage/markdown_storage.py:49-57 | reading the written entry number gives the number back |

## Left out

- Network I/O. The `requests.get` calls, headers and timeouts are not modelled; each fetched page is an `Option<Response>` parameter, where `None` stands for a raised request.
- HTML parsing. BeautifulSoup, CSS-selector semantics and `get_text(strip=True)` are a foreign library. A page is given as the elements each selector found, and an element's `text` is its already-stripped text.
- Rate limiting. The random `time.sleep` between Dev.to items involves randomness and timing, and has no result to state.
- arXiv. The arXiv scraper parses XML with ElementTree, a foreign library; src/scraper/arxiv_scraper.py is not part of this model.
- Reddit API access. `praw` access and the appending loop of `RedditScraper.scrape` are foreign; only the post-record shape (`PostRecord`) and `filter_articles` are modelled.
- The OpenAI client. It is the `Client` oracle, and its construction from the API key is the `Option<Client>` parameter.
- Email delivery. SMTP login, the MIME message and its Subject line become the `delivered` boolean of `SendDigest`.
- Files. The output directory, `open`/`write` and their failures become the `writeSucceeds` boolean of `SaveDigest`. `JoinPath` is POSIX `os.path.join` of a directory and a file name: an absolute name replaces the directory, and a relative one is appended after a single '/'.
- Clocks. `datetime.now()` becomes the `today`, `generatedOn` and `dateStamp` strings. `strptime`/`strftime` on Hacker News timestamps becomes the `DateParser` oracle, and `fromtimestamp` on Reddit dates becomes the `createdDate` field of a `Submission`.
- Logging, `.env` loading, `TechNewsCurator.run` with its broad exception handling, and the package `__init__` files only configure, orchestrate or re-export; they are not modelled.
- EmailDigest.SourceLayout: the HTML head's style sheet (src/storage/email_digest.py:103-203) is left out of the template text. The HTML methods and lemmas take the layout as a parameter and hold for every `Layout`; `SourceLayout()` is the one the source renders with, and its text stays out of the proofs.
- Unicode. Case mapping, `isalnum()` and whitespace are ASCII only.
- Summarizer.SummarizeArticles: a missing title raises `KeyError`, and a truthy text summary appended to a `None`, integer or dictionary title, or any non-text truthy summary, raises `TypeError`; those escaping exceptions are not modelled. A list title with a truthy text summary raises nothing: `+=` extends the list in place, one character per element, and because the prompt text and the title are the same object, the entry's `title` changes too; that aliasing is not modelled. List and dictionary titles are not rendered at all, because `str()` of those kinds is not modelled.
- Curator.FilterDuplicates: articles must have text `title` and `link` fields (the source raises otherwise). The exception that escapes is not modelled.
- MarkdownStorage.CreateDigest, MarkdownStorage.SaveDigest, EmailDigest.CreatePlainDigest, EmailDigest.CreateHtmlDigest, EmailDigest.CreateDigest and EmailDigest.SendDigest: displayed fields must be text, `None` or integers, and those are the values whose `str()` is modelled. The source also accepts lists and dictionaries, whose f-string rendering is their `repr`; that rendering is not modelled.
- MarkdownStorage.CreateDigest: with more than five summaries, every title must be text; otherwise `_format_anchor` raises `AttributeError`. That exception escapes `create_digest` and is not modelled there; `SaveDigest` models the caller that catches it and returns "".
- RedditScraper.FilterArticles: titles must be text. The source raises on other titles, and that is not modelled.
- The constructors of the email, storage and scraper classes only store settings or log; they are not modelled.
- Chunking, length budgets and source-aware summary formatting appear nowhere in `summarizer.py`, so they are not modelled.
