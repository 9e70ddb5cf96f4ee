/** src/storage/email_digest.py: the plain-text and HTML bodies of the email
    digest as string builders, and the input guards of `send_digest`. The
    formatted current date is a parameter. */
module EmailDigest {
  import opened Text
  import opened Values
  import opened Seqs

  /** The fixed text of the HTML body, cut where `create_html_digest`
      inserts a value: the head and banner around the date, an article card
      around title, source, summary text and link, the "More trending
      stories" separator, and the footer around the date. */
  datatype Layout = Layout(
    headBeforeDate: string, headAfterDate: string,
    beforeTitle: string, beforeSource: string, beforeSummary: string,
    beforeLink: string, afterLink: string,
    separator: string,
    footerBeforeDate: string, footerAfterDate: string)

  /** The template text of email_digest.py, with its style sheet left out:
      the layout `create_digest` and `send_digest` stand for when they are
      given `SourceLayout()`. The methods and lemmas about the HTML body take
      the layout as a parameter and hold for every layout, so they hold for
      this one; its text is kept out of their proofs, where the solver would
      otherwise expand it character by character. */
  function SourceLayout(): Layout {
    Layout(
      "<!DOCTYPE html>\n        <html lang=\"en\">\n        <head>\n        <meta charset=\"UTF-8\">\n        <meta name=\"viewport\" content=\"width=device-width, initial-scale=1.0\">\n        <meta name=\"color-scheme\" content=\"light dark\">\n        <title>Tech News Digest</title>\n        <style type=\"text/css\">\n        </style>\n        </head>\n        <body>\n        <table width=\"100%\" bgcolor=\"#f4f4f4\" style=\"padding: 20px 0;\">\n            <tr>\n            <td align=\"center\">\n                <table class=\"container\" cellpadding=\"0\" cellspacing=\"0\">\n                <!-- Header -->\n                <tr>\n                    <td class=\"header\" style=\"background-color: #0A66C2; text-align: center; padding: 20px; color: #ffffff;\">\n                    <div style=\"font-size: 32px; margin-bottom: 10px;\">\U{1F4F1}</div>\n                    <h1 style=\"margin: 0; font-size: 24px; font-weight: bold;\">Tech News Digest</h1>\n                    <div class=\"date\" style=\"font-size: 14px; opacity: 0.9;\">",
      "</div>\n                    </td>\n                </tr>\n                <!-- Content -->\n                <tr>\n                    <td class=\"content\" style=\"padding: 20px; color: #333333; font-size: 16px; line-height: 1.5;\">\n                    <p style=\"margin: 0 0 20px 0;\">Here is your curated digest of today's most important tech stories. Stay informed with the latest news.</p>\n        ",
      "\n                    <div class=\"article\" style=\"border-bottom: 1px solid #dddddd; padding: 15px 0;\">\n                        <div class=\"article-title\" style=\"font-size: 18px; color: #0A66C2; margin-bottom: 10px; font-weight: bold;\">",
      "</div>\n                        <div class=\"meta\" style=\"margin-bottom: 10px;\">\n                        <span class=\"source-tag\" style=\"background-color: #E62117; color: #ffffff; padding: 3px 8px; border-radius: 4px; font-size: 12px;\">",
      "</span>\n                        </div>\n                        <div class=\"summary\" style=\"font-size: 14px; color: #555555; margin: 10px 0;\">",
      "</div>\n                        <a href=\"",
      "\" class=\"article-link\" style=\"display: inline-block; background-color: #7C3AED; color: #ffffff; text-decoration: none; padding: 10px 20px; border-radius: 4px; font-size: 14px; border: 1px solid #7C3AED;\">Read Full Article</a>\n                    </div>\n            ",
      "\n                    <div style=\"text-align: center; margin: 30px 0; color: #555555; font-size: 14px;\">\n                        <strong>More trending stories</strong>\n                        <div style=\"border-top: 1px solid #dddddd; margin-top: 10px;\"></div>\n                    </div>\n                ",
      "\n                    </td>\n                </tr>\n                <tr>\n                    <td class=\"footer\" style=\"text-align: center; font-size: 12px; color: #777777; padding: 20px; border-top: 1px solid #dddddd;\">\n                    <p style=\"margin: 0 0 10px 0;\">Thanks for reading the Tech News Digest for ",
      "</p>\n                    <div class=\"social-links\" style=\"font-size: 14px;\">\n                        <a href=\"https://github.com/VenkatPantham\" style=\"color: #0A66C2; text-decoration: none; margin: 0 5px;\">GitHub</a>&bull;\n                        <a href=\"https://www.linkedin.com/in/venkat-pantham/\" style=\"color: #0A66C2; text-decoration: none; margin: 0 5px;\">LinkedIn</a>&bull;\n                        <a href=\"https://venkatpantham.github.io/\" style=\"color: #0A66C2; text-decoration: none; margin: 0 5px;\">Website</a>\n                    </div>\n                    </td>\n                </tr>\n                </table>\n            </td>\n            </tr>\n        </table>\n        </body>\n        </html>\n        ")
  }

  /** The fields both bodies render are text, `None` or integers. */
  predicate Printable(s: Record) {
    ShowsField(s, "title") && ShowsField(s, "source") && ShowsField(s, "link") && ShowsField(s, "summary")
  }

  /** The rendered fields, with the defaults for missing keys. */
  function Title(s: Record): (v: Value)
    ensures "title" in s ==> v == s["title"]
    ensures "title" !in s ==> v == Str("No Title")
  {
    Get(s, "title", Str("No Title"))
  }

  function SourceName(s: Record): (v: Value)
    ensures "source" in s ==> v == s["source"]
    ensures "source" !in s ==> v == Str("Unknown Source")
  {
    Get(s, "source", Str("Unknown Source"))
  }

  function LinkOf(s: Record): (v: Value)
    ensures "link" in s ==> v == s["link"]
    ensures "link" !in s ==> v == Str("No link available")
  {
    Get(s, "link", Str("No link available"))
  }

  function SummaryText(s: Record): (v: Value)
    ensures "summary" in s ==> v == s["summary"]
    ensures "summary" !in s ==> v == Str("")
  {
    Get(s, "summary", Str(""))
  }

  function PlainHeader(today: string): string {
    "Daily Tech News Digest - " + today + "\n\n"
  }

  /** One summary in the plain-text body: bold title, source, link, summary
      text, separator. */
  function PlainBlock(s: Record): (b: string)
    requires Printable(s)
    ensures StartsWith(b, "**" + Show(Title(s)) + "**\n")
    ensures b[|b| - 5..] == "---\n\n"
  {
    ("**" + Show(Title(s)) + "**\n")
    + ("Source: " + Show(SourceName(s)) + "\n")
    + ("Link: " + Show(LinkOf(s)) + "\n")
    + (Show(SummaryText(s)) + "\n\n")
    + "---\n\n"
  }

  function PlainBlocks(ss: seq<Record>): (bs: seq<string>)
    requires forall i | 0 <= i < |ss| :: Printable(ss[i])
    ensures |bs| == |ss|
  {
    seq(|ss|, i requires 0 <= i < |ss| => PlainBlock(ss[i]))
  }

  /** What `create_plain_digest` produces. */
  function PlainDigest(ss: seq<Record>, today: string): string
    requires forall i | 0 <= i < |ss| :: Printable(ss[i])
  {
    PlainHeader(today) + Concat(PlainBlocks(ss))
  }

  /** The blocks follow the input order: rendering `a + b` is rendering `a`
      and then `b`. */
  lemma PlainBlocksAppend(a: seq<Record>, b: seq<Record>)
    requires forall i | 0 <= i < |a + b| :: Printable((a + b)[i])
    ensures forall i | 0 <= i < |a| :: Printable(a[i])
    ensures forall i | 0 <= i < |b| :: Printable(b[i])
    ensures Concat(PlainBlocks(a + b)) == Concat(PlainBlocks(a)) + Concat(PlainBlocks(b))
  {
    assert forall i | 0 <= i < |a| :: a[i] == (a + b)[i];
    assert forall i | 0 <= i < |b| :: b[i] == (a + b)[|a| + i];
    assert PlainBlocks(a + b) == PlainBlocks(a) + PlainBlocks(b);
    ConcatAppend(PlainBlocks(a), PlainBlocks(b));
  }

  /** One more summary adds exactly its block at the end of the digest. */
  lemma PlainDigestSnoc(ss: seq<Record>, s: Record, today: string)
    requires forall i | 0 <= i < |ss| :: Printable(ss[i])
    requires Printable(s)
    ensures PlainDigest(ss + [s], today) == PlainDigest(ss, today) + PlainBlock(s)
  {
    var all := ss + [s];
    assert all[..|ss|] == ss;
    assert PlainBlocks(all)[..|ss|] == PlainBlocks(ss);
    AppendAssociative(PlainHeader(today), Concat(PlainBlocks(ss)), PlainBlock(s));
  }

  /** `EmailDigest.create_plain_digest`: the dated header, then one block per
      summary in input order. */
  method CreatePlainDigest(summaries: seq<Record>, today: string) returns (digest: string)
    requires forall i | 0 <= i < |summaries| :: Printable(summaries[i])
    ensures digest == PlainDigest(summaries, today)
  {
    digest := "Daily Tech News Digest - " + today + "\n\n";
    var blocks := PlainBlocks(summaries);
    for i := 0 to |summaries|
      invariant digest == PlainHeader(today) + Concat(blocks[..i])
    {
      var summary := summaries[i];
      var title := Title(summary);
      var sourceName := SourceName(summary);
      var link := LinkOf(summary);
      var summaryText := SummaryText(summary);
      var block := "**" + Show(title) + "**\n";
      block := block + ("Source: " + Show(sourceName) + "\n");
      block := block + ("Link: " + Show(link) + "\n");
      block := block + (Show(summaryText) + "\n\n");
      block := block + "---\n\n";
      assert block == blocks[i];
      ConcatSnoc(blocks, i);
      AppendAssociative(PlainHeader(today), Concat(blocks[..i]), block);
      digest := digest + block;
    }
    assert blocks[..|summaries|] == blocks;
  }

  /** One article card of the HTML body. */
  function HtmlArticle(layout: Layout, s: Record): string
    requires Printable(s)
  {
    layout.beforeTitle + Show(Title(s)) + layout.beforeSource + Show(SourceName(s))
    + layout.beforeSummary + Show(SummaryText(s)) + layout.beforeLink + Show(LinkOf(s))
    + layout.afterLink
  }

  /** A card begins with the title and then the source. */
  lemma HtmlArticleShape(layout: Layout, s: Record)
    requires Printable(s)
    ensures StartsWith(HtmlArticle(layout, s), layout.beforeTitle + Show(Title(s)) + layout.beforeSource)
  {
  }

  /** The cards of `ss` alone, without any separator. */
  function HtmlArticles(layout: Layout, ss: seq<Record>): (cs: seq<string>)
    requires forall i | 0 <= i < |ss| :: Printable(ss[i])
    ensures |cs| == |ss|
  {
    seq(|ss|, i requires 0 <= i < |ss| => HtmlArticle(layout, ss[i]))
  }

  /** Card `i` as the loop emits it: followed by the separator when `i` is the
      third card of more than five. */
  function HtmlBlock(layout: Layout, ss: seq<Record>, i: nat): string
    requires i < |ss| && Printable(ss[i])
  {
    HtmlArticle(layout, ss[i]) + (if i == 2 && |ss| > 5 then layout.separator else "")
  }

  function HtmlBlocks(layout: Layout, ss: seq<Record>): (bs: seq<string>)
    requires forall i | 0 <= i < |ss| :: Printable(ss[i])
    ensures |bs| == |ss|
  {
    seq(|ss|, i requires 0 <= i < |ss| => HtmlBlock(layout, ss, i))
  }

  function HtmlHead(layout: Layout, today: string): string {
    layout.headBeforeDate + today + layout.headAfterDate
  }

  function HtmlFooter(layout: Layout, today: string): string {
    layout.footerBeforeDate + today + layout.footerAfterDate
  }

  /** What `create_html_digest` produces with the given layout. */
  function HtmlDigest(layout: Layout, ss: seq<Record>, today: string): string
    requires forall i | 0 <= i < |ss| :: Printable(ss[i])
  {
    HtmlHead(layout, today) + Concat(HtmlBlocks(layout, ss)) + HtmlFooter(layout, today)
  }

  lemma BlocksWithSeparator(layout: Layout, ss: seq<Record>)
    requires forall i | 0 <= i < |ss| :: Printable(ss[i])
    requires |ss| > 5
    ensures var cs := HtmlArticles(layout, ss);
      HtmlBlocks(layout, ss) == cs[..2] + [cs[2] + layout.separator] + cs[3..]
  {
    var bs, cs := HtmlBlocks(layout, ss), HtmlArticles(layout, ss);
    var parts := cs[..2] + [cs[2] + layout.separator] + cs[3..];
    forall i | 0 <= i < |ss| ensures bs[i] == parts[i] {
      if i != 2 {
        assert bs[i] == cs[i] + "";
      }
    }
  }

  /** With more than five cards the separator sits between the third and the
      fourth. */
  lemma SeparatorAfterThird(layout: Layout, ss: seq<Record>)
    requires forall i | 0 <= i < |ss| :: Printable(ss[i])
    requires |ss| > 5
    ensures var cs := HtmlArticles(layout, ss);
      Concat(HtmlBlocks(layout, ss)) == Concat(cs[..3]) + layout.separator + Concat(cs[3..])
  {
    var cs, sep := HtmlArticles(layout, ss), layout.separator;
    calc {
      Concat(HtmlBlocks(layout, ss));
      { BlocksWithSeparator(layout, ss); }
      Concat(cs[..2] + [cs[2] + sep] + cs[3..]);
      { ConcatExtendAt(cs, 2, sep); }
      Concat(cs[..3]) + sep + Concat(cs[3..]);
    }
  }

  /** With at most five cards there is no separator. */
  lemma NoSeparatorUpToFive(layout: Layout, ss: seq<Record>)
    requires forall i | 0 <= i < |ss| :: Printable(ss[i])
    requires |ss| <= 5
    ensures Concat(HtmlBlocks(layout, ss)) == Concat(HtmlArticles(layout, ss))
  {
    var bs, cs := HtmlBlocks(layout, ss), HtmlArticles(layout, ss);
    forall i | 0 <= i < |ss| ensures bs[i] == cs[i] {
      assert bs[i] == cs[i] + "";
    }
    assert bs == cs;
  }

  /** One card, as the loop of `create_html_digest` formats it. */
  method FormatCard(layout: Layout, summary: Record) returns (card: string)
    requires Printable(summary)
    ensures card == HtmlArticle(layout, summary)
  {
    var title := Title(summary);
    var sourceName := SourceName(summary);
    var link := LinkOf(summary);
    var summaryText := SummaryText(summary);
    card := layout.beforeTitle + Show(title) + layout.beforeSource + Show(sourceName)
            + layout.beforeSummary + Show(summaryText) + layout.beforeLink + Show(link)
            + layout.afterLink;
  }

  /** `EmailDigest.create_html_digest`: the dated head, each card in input
      order with the separator after the third of more than five, the dated
      footer. */
  method CreateHtmlDigest(layout: Layout, summaries: seq<Record>, today: string) returns (html: string)
    requires forall i | 0 <= i < |summaries| :: Printable(summaries[i])
    ensures html == HtmlDigest(layout, summaries, today)
  {
    html := layout.headBeforeDate + today + layout.headAfterDate;
    var articleCount := |summaries|;
    ghost var blocks := HtmlBlocks(layout, summaries);
    for i := 0 to |summaries|
      invariant html == HtmlHead(layout, today) + Concat(blocks[..i])
    {
      ghost var before := html;
      var card := FormatCard(layout, summaries[i]);
      html := html + card;
      if i == 2 && articleCount > 5 {
        AppendAssociative(before, card, layout.separator);
        html := html + layout.separator;
      } else {
        assert card + "" == card;
      }
      assert html == before + blocks[i];
      ConcatSnoc(blocks, i);
      AppendAssociative(HtmlHead(layout, today), Concat(blocks[..i]), blocks[i]);
    }
    assert blocks[..|summaries|] == blocks;
    html := html + (layout.footerBeforeDate + today + layout.footerAfterDate);
  }

  /** `EmailDigest.create_digest`: the plain-text and HTML bodies of one
      digest. */
  method CreateDigest(layout: Layout, summaries: seq<Record>, today: string)
    returns (plain: string, html: string)
    requires forall i | 0 <= i < |summaries| :: Printable(summaries[i])
    ensures plain == PlainDigest(summaries, today)
    ensures html == HtmlDigest(layout, summaries, today)
  {
    plain := CreatePlainDigest(summaries, today);
    html := CreateHtmlDigest(layout, summaries, today);
  }

  /** `EmailDigest.send_digest`: no message is built and False is returned for
      an empty recipient list or an empty summary list; otherwise both bodies
      are built and the result is whether the SMTP exchange (`delivered`)
      succeeded. */
  method SendDigest(layout: Layout, recipients: seq<string>, summaries: seq<Record>, today: string,
                    delivered: bool)
    returns (sent: bool, bodies: Option<(string, string)>)
    requires forall i | 0 <= i < |summaries| :: Printable(summaries[i])
    ensures recipients == [] || summaries == [] ==> !sent && bodies == None
    ensures recipients != [] && summaries != [] ==>
      sent == delivered
      && bodies == Some((PlainDigest(summaries, today), HtmlDigest(layout, summaries, today)))
  {
    if recipients == [] {
      return false, None;
    }
    if summaries == [] {
      return false, None;
    }
    var plain, html := CreateDigest(layout, summaries, today);
    bodies := Some((plain, html));
    sent := delivered;
  }
}
