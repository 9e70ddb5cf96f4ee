/** src/storage/markdown_storage.py: the Markdown digest as a string builder,
    the anchor slugs of its table of contents, and the guard and file name of
    `save_digest`. The generation time and the date stamp are parameters. */
module MarkdownStorage {
  import opened Text
  import opened Values
  import opened Seqs

  /** A character `_format_anchor` can output. */
  predicate IsAnchorChar(c: char) {
    IsLowerLetter(c) || IsDigit(c) || c == '-'
  }

  /** `''.join(c for c in s if c.isalnum() or c == '-')`. */
  function KeepAnchorChars(s: string): (r: string)
    ensures |r| <= |s|
    ensures forall k | 0 <= k < |r| :: r[k] in s && (IsAlnum(r[k]) || r[k] == '-')
  {
    if s == [] then []
    else
      var rest := KeepAnchorChars(s[1..]);
      if IsAlnum(s[0]) || s[0] == '-' then [s[0]] + rest else rest
  }

  /** `MarkdownStorage._format_anchor`: lower-case, spaces to hyphens, then
      only letters, digits and hyphens kept. */
  function FormatAnchor(text: string): (r: string)
    ensures |r| <= |text|
    ensures forall k | 0 <= k < |r| :: IsAnchorChar(r[k])
  {
    var lowered := Lower(text);
    var hyphenated := ReplaceChar(lowered, ' ', '-');
    var r := KeepAnchorChars(hyphenated);
    forall k | 0 <= k < |r| ensures IsAnchorChar(r[k]) {
      var j :| 0 <= j < |hyphenated| && hyphenated[j] == r[k];
      assert hyphenated[j] == '-' || hyphenated[j] == lowered[j];
    }
    r
  }

  lemma {:induction false} KeepAnchorCharsOfAnchor(s: string)
    requires forall k | 0 <= k < |s| :: IsAnchorChar(s[k])
    ensures KeepAnchorChars(s) == s
    decreases |s|
  {
    if s != [] {
      KeepAnchorCharsOfAnchor(s[1..]);
    }
  }

  /** Formatting an anchor twice is formatting it once. */
  lemma FormatAnchorIdempotent(text: string)
    ensures FormatAnchor(FormatAnchor(text)) == FormatAnchor(text)
  {
    FormatAnchorOfAnchor(FormatAnchor(text));
  }

  lemma {:induction false} KeepAnchorCharsAppend(a: string, b: string)
    ensures KeepAnchorChars(a + b) == KeepAnchorChars(a) + KeepAnchorChars(b)
    decreases |a|
  {
    if a == [] {
      assert a + b == b;
    } else {
      assert (a + b)[1..] == a[1..] + b;
      KeepAnchorCharsAppend(a[1..], b);
    }
  }

  /** The anchor is built character by character: a letter or digit gives its
      lower-case form, a space or hyphen gives '-', anything else nothing. */
  lemma FormatAnchorAppend(a: string, b: string)
    ensures FormatAnchor(a + b) == FormatAnchor(a) + FormatAnchor(b)
  {
    assert Lower(a + b) == Lower(a) + Lower(b);
    assert ReplaceChar(Lower(a) + Lower(b), ' ', '-') ==
           ReplaceChar(Lower(a), ' ', '-') + ReplaceChar(Lower(b), ' ', '-');
    KeepAnchorCharsAppend(ReplaceChar(Lower(a), ' ', '-'), ReplaceChar(Lower(b), ' ', '-'));
  }

  lemma FormatAnchorChar(c: char)
    ensures FormatAnchor([c]) ==
      if IsAlnum(c) then [LowerChar(c)] else if c == ' ' || c == '-' then "-" else ""
  {
    assert Lower([c]) == [LowerChar(c)];
    assert ReplaceChar([LowerChar(c)], ' ', '-') == [if LowerChar(c) == ' ' then '-' else LowerChar(c)];
  }

  /** A string already made of anchor characters is its own anchor. */
  lemma FormatAnchorOfAnchor(s: string)
    requires forall k | 0 <= k < |s| :: IsAnchorChar(s[k])
    ensures FormatAnchor(s) == s
  {
    assert Lower(s) == s;
    assert ReplaceChar(s, ' ', '-') == s;
    KeepAnchorCharsOfAnchor(s);
  }

  /** The table-of-contents link `#i-<anchor>` is the anchor of the entry
      heading text `i. <title>`, so every link resolves to its entry. */
  lemma TocLinkTargetsEntryHeading(i: nat, title: string)
    ensures FormatAnchor(NatToString(i) + ". " + title) == NatToString(i) + "-" + FormatAnchor(title)
  {
    var n, t := NatToString(i), FormatAnchor(title);
    assert "." == ['.'] && " " == [' '];
    calc {
      FormatAnchor(n + ". " + title);
      { assert n + ". " + title == n + ("." + (" " + title)); }
      FormatAnchor(n + ("." + (" " + title)));
      { FormatAnchorAppend(n, "." + (" " + title)); }
      FormatAnchor(n) + FormatAnchor("." + (" " + title));
      { FormatAnchorAppend(".", " " + title); FormatAnchorAppend(" ", title); }
      FormatAnchor(n) + (FormatAnchor(".") + (FormatAnchor(" ") + t));
      { FormatAnchorChar('.'); FormatAnchorChar(' '); FormatAnchorOfAnchor(n); }
      n + ("" + ("-" + t));
    }
  }

  /** The fields the digest renders are text, `None` or integers. */
  predicate Renderable(s: Record) {
    ShowsField(s, "title") && ShowsField(s, "source") && ShowsField(s, "link")
    && ShowsField(s, "date") && ShowsField(s, "summary")
  }

  /** `_format_anchor(title)` needs a text title when the table of contents is built. */
  predicate AnchorableTitle(s: Record) {
    "title" in s ==> s["title"].Str?
  }

  /** The table of contents of `ss` can be built: it is absent, or every title
      is anchorable. */
  predicate TocBuildable(ss: seq<Record>) {
    |ss| > 5 ==> forall i | 0 <= i < |ss| :: AnchorableTitle(ss[i])
  }

  function Title(s: Record): Value {
    Get(s, "title", Str("Untitled Article"))
  }

  function Header(generatedOn: string): string {
    "# Daily Tech News Digest\n\n" + ("Generated on: " + generatedOn + "\n\n")
  }

  /** Table-of-contents line `i`: the title linked to the anchor of entry `i`. */
  function TocLine(i: nat, s: Record): (line: string)
    requires AnchorableTitle(s)
    ensures StartsWith(line, NatToString(i) + ". [")
  {
    var t := Title(s).s;
    (NatToString(i) + ". [") + (t + "](#" + NatToString(i) + "-" + FormatAnchor(t) + ")\n")
  }

  /** The table-of-contents lines of `ss`, numbered from `first`. */
  function TocLines(ss: seq<Record>, first: nat): (lines: seq<string>)
    requires forall i | 0 <= i < |ss| :: AnchorableTitle(ss[i])
    ensures |lines| == |ss|
  {
    seq(|ss|, i requires 0 <= i < |ss| => TocLine(first + i, ss[i]))
  }

  /** The table of contents, present only for more than five summaries. */
  function Toc(ss: seq<Record>): string
    requires TocBuildable(ss)
  {
    if |ss| > 5 then "## Table of Contents\n\n" + Concat(TocLines(ss, 1)) + "\n---\n\n" else ""
  }

  /** `[link](link)` for a truthy link, else the empty placeholder link. */
  function LinkLine(s: Record): string
    requires Renderable(s)
  {
    var link := Get(s, "link", Str(""));
    if Truthy(link) then "**Link**: [" + Show(link) + "](" + Show(link) + ")\n\n"
    else "**Link**: [No link available]()\n\n"
  }

  /** The date line, emitted only for a truthy date. */
  function DateLine(s: Record): (line: string)
    requires Renderable(s)
    ensures line == "" <==> !Truthy(Get(s, "date", Null))
  {
    var date := Get(s, "date", Null);
    if Truthy(date) then "**Date**: " + Show(date) + "\n\n" else ""
  }

  /** Entry `i`: numbered header, source, link, optional date, summary text,
      separator; missing title, source and summary take their defaults. */
  function Entry(i: nat, s: Record): string
    requires Renderable(s)
  {
    EntryHeader(i, s) + SourceLine(s) + LinkLine(s) + DateLine(s) + SummaryLine(s) + "---\n\n"
  }

  function EntryHeader(i: nat, s: Record): string
    requires Renderable(s)
  {
    "## " + NatToString(i) + ". " + Show(Title(s)) + "\n\n"
  }

  function SourceLine(s: Record): string
    requires Renderable(s)
  {
    "**Source**: " + Show(Get(s, "source", Str("Unknown Source"))) + "\n\n"
  }

  function SummaryLine(s: Record): string
    requires Renderable(s)
  {
    Show(Get(s, "summary", Str("No summary available."))) + "\n\n"
  }

  /** Where the parts of a six-part string sit, whatever the parts are. */
  lemma SixParts(a: string, b: string, c: string, d: string, e: string, f: string)
    ensures a <= a + b + c + d + e + f
    ensures var w := a + b + c + d + e + f;
      |e + f| <= |w| && w[|w| - |e + f|..] == e + f && w[|w| - |f|..] == f
  {
    var front := a + b + c + d;
    assert a + b + c + d + e + f == front + (e + f);
    assert (front + (e + f))[|front|..] == e + f;
  }

  /** Text inside the second part is inside the whole. */
  lemma InSecondOfSix(a: string, b: string, c: string, d: string, e: string, f: string, needle: string)
    requires needle <= b
    ensures Contains(a + b + c + d + e + f, needle)
  {
    ContainsAfter(a, b, needle);
    ContainsExtend(a + b, c, needle);
    ContainsExtend(a + b + c, d, needle);
    ContainsExtend(a + b + c + d, e, needle);
    ContainsExtend(a + b + c + d + e, f, needle);
  }

  /** Entry `i` opens with its numbered header and closes with the separator. */
  lemma EntryShape(i: nat, s: Record)
    requires Renderable(s)
    ensures StartsWith(Entry(i, s), "## " + NatToString(i) + ". " + Show(Title(s)) + "\n\n")
    ensures Entry(i, s)[|Entry(i, s)| - 5..] == "---\n\n"
  {
    SixParts(EntryHeader(i, s), SourceLine(s), LinkLine(s), DateLine(s), SummaryLine(s), "---\n\n");
  }

  /** An entry links to its article, or shows the placeholder for a missing
      or empty link. */
  lemma EntryShowsLink(i: nat, s: Record)
    requires Renderable(s)
    ensures var link := Get(s, "link", Str(""));
      Contains(Entry(i, s), if Truthy(link) then "**Link**: [" + Show(link) + "](" + Show(link) + ")"
                            else "**Link**: [No link available]()")
  {
    var link := Get(s, "link", Str(""));
    var needle := if Truthy(link) then "**Link**: [" + Show(link) + "](" + Show(link) + ")"
                  else "**Link**: [No link available]()";
    var head := EntryHeader(i, s) + SourceLine(s);
    var summary := SummaryLine(s);
    ContainsAfter(head, LinkLine(s), needle);
    ContainsExtend(head + LinkLine(s), DateLine(s), needle);
    ContainsExtend(head + LinkLine(s) + DateLine(s), summary, needle);
    ContainsExtend(head + LinkLine(s) + DateLine(s) + summary, "---\n\n", needle);
  }

  /** An entry shows its source, "Unknown Source" when the summary has none. */
  lemma EntryShowsSource(i: nat, s: Record)
    requires Renderable(s)
    ensures Contains(Entry(i, s), "**Source**: " + Show(Get(s, "source", Str("Unknown Source"))))
    ensures "source" !in s ==> Contains(Entry(i, s), "**Source**: " + "Unknown Source")
  {
    var needle := "**Source**: " + Show(Get(s, "source", Str("Unknown Source")));
    InSecondOfSix(EntryHeader(i, s), SourceLine(s), LinkLine(s), DateLine(s), SummaryLine(s), "---\n\n", needle);
    if "source" !in s {
      assert Show(Get(s, "source", Str("Unknown Source"))) == "Unknown Source";
    }
  }

  /** An entry ends with its summary text before the separator, "No summary
      available." when the summary has none. */
  lemma EntryEndsWithSummary(i: nat, s: Record)
    requires Renderable(s)
    ensures var tail := Show(Get(s, "summary", Str("No summary available."))) + "\n\n" + "---\n\n";
      |tail| <= |Entry(i, s)| && Entry(i, s)[|Entry(i, s)| - |tail|..] == tail
    ensures var tail := "No summary available." + "\n\n" + "---\n\n";
      "summary" !in s ==> |tail| <= |Entry(i, s)| && Entry(i, s)[|Entry(i, s)| - |tail|..] == tail
  {
    var e := Entry(i, s);
    var tail := SummaryLine(s) + "---\n\n";
    SixParts(EntryHeader(i, s), SourceLine(s), LinkLine(s), DateLine(s), SummaryLine(s), "---\n\n");
    assert |tail| <= |e| && e[|e| - |tail|..] == tail;
    if "summary" !in s {
      assert tail == "No summary available." + "\n\n" + "---\n\n";
    }
  }

  /** An entry with a truthy date shows it. */
  lemma EntryShowsDate(i: nat, s: Record)
    requires Renderable(s) && Truthy(Get(s, "date", Null))
    ensures Contains(Entry(i, s), "**Date**: " + Show(Get(s, "date", Null)))
  {
    var needle := "**Date**: " + Show(Get(s, "date", Null));
    var head := EntryHeader(i, s) + SourceLine(s) + LinkLine(s);
    var summary := SummaryLine(s);
    ContainsAfter(head, DateLine(s), needle);
    ContainsExtend(head + DateLine(s), summary, needle);
    ContainsExtend(head + DateLine(s) + summary, "---\n\n", needle);
  }

  /** The entries of `ss`, numbered from `first`. */
  function Entries(ss: seq<Record>, first: nat): (es: seq<string>)
    requires forall i | 0 <= i < |ss| :: Renderable(ss[i])
    ensures |es| == |ss|
  {
    seq(|ss|, i requires 0 <= i < |ss| => Entry(first + i, ss[i]))
  }

  /** The digest's entries follow the input order: entry `k` renders
      summary `k` under the header numbered `k + 1`. */
  lemma EntriesNumbered(ss: seq<Record>, k: nat)
    requires forall i | 0 <= i < |ss| :: Renderable(ss[i])
    requires k < |ss|
    ensures StartsWith(Entries(ss, 1)[k], "## " + NatToString(k + 1) + ". " + Show(Title(ss[k])) + "\n\n")
  {
    EntryShape(k + 1, ss[k]);
  }

  /** What `create_digest` produces. */
  function MarkdownDigest(ss: seq<Record>, generatedOn: string): string
    requires forall i | 0 <= i < |ss| :: Renderable(ss[i])
    requires TocBuildable(ss)
  {
    Header(generatedOn) + Toc(ss) + Concat(Entries(ss, 1))
  }

  /** The digest is just the header and the entries exactly when there are at
      most five summaries; otherwise a table of contents sits between them. */
  lemma TocIffMoreThanFive(ss: seq<Record>, generatedOn: string)
    requires forall i | 0 <= i < |ss| :: Renderable(ss[i])
    requires TocBuildable(ss)
    ensures MarkdownDigest(ss, generatedOn) == Header(generatedOn) + Concat(Entries(ss, 1)) <==> |ss| <= 5
  {
    var h, t, e := Header(generatedOn), Toc(ss), Concat(Entries(ss, 1));
    assert MarkdownDigest(ss, generatedOn) == h + t + e;
    if |ss| > 5 {
      assert |t| > 0;
      assert |h + t + e| != |h + e|;
    } else {
      assert h + t == h;
    }
  }

  /** One pass of the entry loop of `create_digest`. */
  method RenderEntry(i: nat, summary: Record) returns (block: string)
    requires Renderable(summary)
    ensures block == Entry(i, summary)
  {
    var title := Title(summary);
    block := "## " + NatToString(i) + ". " + Show(title) + "\n\n";
    var sourceName := Get(summary, "source", Str("Unknown Source"));
    block := block + ("**Source**: " + Show(sourceName) + "\n\n");
    var link := Get(summary, "link", Str(""));
    if Truthy(link) {
      block := block + ("**Link**: [" + Show(link) + "](" + Show(link) + ")\n\n");
    } else {
      block := block + "**Link**: [No link available]()\n\n";
    }
    var date := Get(summary, "date", Null);
    if Truthy(date) {
      block := block + ("**Date**: " + Show(date) + "\n\n");
    }
    var summaryText := Get(summary, "summary", Str("No summary available."));
    block := block + (Show(summaryText) + "\n\n");
    block := block + "---\n\n";
  }

  /** One line of the table of contents, as the loop formats it. */
  method FormatTocLine(i: nat, s: Record) returns (line: string)
    requires AnchorableTitle(s)
    ensures line == TocLine(i, s)
  {
    var title := Title(s).s;
    line := (NatToString(i) + ". [") + (title + "](#" + NatToString(i) + "-" + FormatAnchor(title) + ")\n");
  }

  /** The numbered lines of the table of contents, one per summary. */
  method RenderTocLines(summaries: seq<Record>) returns (body: string)
    requires forall i | 0 <= i < |summaries| :: AnchorableTitle(summaries[i])
    ensures body == Concat(TocLines(summaries, 1))
  {
    body := "";
    var lines := TocLines(summaries, 1);
    for i := 0 to |summaries|
      invariant body == Concat(lines[..i])
    {
      var line := FormatTocLine(i + 1, summaries[i]);
      assert line == lines[i];
      ConcatSnoc(lines, i);
      body := body + line;
    }
    assert lines[..|summaries|] == lines;
  }

  /** The table-of-contents section of `create_digest`. */
  method RenderToc(summaries: seq<Record>) returns (toc: string)
    requires TocBuildable(summaries)
    ensures toc == Toc(summaries)
  {
    toc := "";
    if |summaries| > 5 {
      var body := RenderTocLines(summaries);
      toc := "## Table of Contents\n\n" + body + "\n---\n\n";
    }
  }

  /** `MarkdownStorage.create_digest`: the header, the table of contents when
      there are more than five summaries, then one entry per summary. */
  method CreateDigest(summaries: seq<Record>, generatedOn: string) returns (digest: string)
    requires forall i | 0 <= i < |summaries| :: Renderable(summaries[i])
    requires TocBuildable(summaries)
    ensures digest == MarkdownDigest(summaries, generatedOn)
  {
    digest := "# Daily Tech News Digest\n\n";
    digest := digest + ("Generated on: " + generatedOn + "\n\n");
    var toc := RenderToc(summaries);
    digest := digest + toc;
    ghost var prefix := digest;
    assert prefix == Header(generatedOn) + Toc(summaries);
    var entries := Entries(summaries, 1);
    for i := 0 to |summaries|
      invariant digest == prefix + Concat(entries[..i])
    {
      var block := RenderEntry(i + 1, summaries[i]);
      assert block == entries[i];
      ConcatSnoc(entries, i);
      AppendAssociative(prefix, Concat(entries[..i]), block);
      digest := digest + block;
    }
    assert entries[..|summaries|] == entries;
  }

  /** `os.path.join(directory, name)` for two POSIX path parts. */
  function JoinPath(directory: string, name: string): string {
    if StartsWith(name, "/") then name
    else if directory == "" || directory[|directory| - 1] == '/' then directory + name
    else directory + "/" + name
  }

  /** The file name `save_digest` uses: the given one when set, else one made
      from the `%Y%m%d` date stamp. */
  function DigestFilename(filename: Option<string>, dateStamp: string): (name: string)
    ensures filename.Some? && filename.value != "" ==> name == filename.value
    ensures !(filename.Some? && filename.value != "") ==> name == "tech_digest_" + dateStamp + ".md"
  {
    if filename.Some? && filename.value != "" then filename.value
    else "tech_digest_" + dateStamp + ".md"
  }

  /** `MarkdownStorage.save_digest`: nothing is written and "" is returned for
      an empty list; otherwise the digest is written to the joined path, which
      is returned, or "" when the write fails. `written` is the content handed
      to `write`, whether or not the write then succeeds. */
  method SaveDigest(outputDir: string, summaries: seq<Record>, filename: Option<string>,
                    dateStamp: string, generatedOn: string, writeSucceeds: bool)
    returns (path: string, written: Option<string>)
    requires forall i | 0 <= i < |summaries| :: Renderable(summaries[i])
    ensures summaries == [] ==> path == "" && written == None
    ensures summaries != [] && !TocBuildable(summaries) ==> path == "" && written == None
    ensures summaries != [] && TocBuildable(summaries) ==>
      written == Some(MarkdownDigest(summaries, generatedOn))
      && path == if writeSucceeds then JoinPath(outputDir, DigestFilename(filename, dateStamp)) else ""
  {
    if summaries == [] {
      return "", None;
    }
    var name := DigestFilename(filename, dateStamp);
    var filePath := JoinPath(outputDir, name);
    if !TocBuildable(summaries) {
      // `create_digest` raises `AttributeError` in `_format_anchor`; the handler returns "".
      return "", None;
    }
    var content := CreateDigest(summaries, generatedOn);
    written := Some(content);
    path := if writeSucceeds then filePath else "";
  }
}
