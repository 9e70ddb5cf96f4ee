/** Records and filters of src/main.py: the field-by-field standardisation of
    a scraped article, the order-preserving duplicate filter, and the check
    that switches email sending off when it cannot work. */
module Curator {
  import opened Text
  import opened Values
  import opened Seqs

  /** `ArticleProcessor.standardize_article`: every field has a default, so the
      result always has the six canonical keys. `today` stands for
      `datetime.now().strftime("%Y-%m-%d")`. */
  function StandardizeArticle(article: Record, source: string, today: string): (r: Record)
    ensures r.Keys == {"title", "link", "source", "date", "summary", "original"}
    ensures r["title"] == (if "title" in article then article["title"] else Str("No Title"))
    ensures r["link"] == (if "link" in article then article["link"]
                          else if "url" in article then article["url"]
                          else Str(""))
    ensures r["source"] == Str(source)
    ensures r["date"] == (if "date" in article then article["date"] else Str(today))
    ensures r["summary"] == (if "summary" in article then article["summary"] else Str(""))
    ensures r["original"] == Dict(article)
  {
    map[
      "title" := Get(article, "title", Str("No Title")),
      "link" := Get(article, "link", Get(article, "url", Str(""))),
      "source" := Str(source),
      "date" := Get(article, "date", Str(today)),
      "summary" := Get(article, "summary", Str("")),
      "original" := Dict(article)
    ]
  }

  /** An article `filter_duplicates` can fingerprint: `article["title"].lower()`
      and `article["link"].strip()` need both keys, holding text. */
  predicate Fingerprintable(a: Record) {
    HasText(a, "title") && HasText(a, "link")
  }

  predicate AllFingerprintable(xs: seq<Record>) {
    forall a | a in xs :: Fingerprintable(a)
  }

  /** A scraped article whose title and link are text (or absent) standardises
      into one the duplicate filter accepts. */
  lemma StandardizedIsFingerprintable(article: Record, source: string, today: string)
    requires "title" in article ==> article["title"].Str?
    requires "link" in article ==> article["link"].Str?
    requires "link" !in article && "url" in article ==> article["url"].Str?
    ensures Fingerprintable(StandardizeArticle(article, source, today))
  {
  }

  /** `article["title"].lower().strip()`. */
  function TitleFingerprint(a: Record): string
    requires Fingerprintable(a)
  {
    Strip(Lower(a["title"].s))
  }

  /** `article["link"].strip()`: links are not case-folded. */
  function LinkFingerprint(a: Record): string
    requires Fingerprintable(a)
  {
    Strip(a["link"].s)
  }

  /** `seen_titles` after keeping `kept`: the title fingerprints of the kept articles. */
  function SeenTitles(kept: seq<Record>): set<string>
    requires AllFingerprintable(kept)
  {
    set j | 0 <= j < |kept| :: TitleFingerprint(kept[j])
  }

  /** `seen_links` after keeping `kept`: their non-empty link fingerprints. */
  function SeenLinks(kept: seq<Record>): set<string>
    requires AllFingerprintable(kept)
  {
    set j | 0 <= j < |kept| && LinkFingerprint(kept[j]) != "" :: LinkFingerprint(kept[j])
  }

  lemma SeenSnoc(kept: seq<Record>, a: Record)
    requires AllFingerprintable(kept) && Fingerprintable(a)
    ensures AllFingerprintable(kept + [a])
    ensures SeenTitles(kept + [a]) == SeenTitles(kept) + {TitleFingerprint(a)}
    ensures SeenLinks(kept + [a]) ==
      SeenLinks(kept) + (if LinkFingerprint(a) != "" then {LinkFingerprint(a)} else {})
  {
    var r := kept + [a];
    assert forall j | 0 <= j < |kept| :: r[j] == kept[j];
    assert r[|kept|] == a;
    assert SeenTitles(r) == SeenTitles(kept) + {TitleFingerprint(a)};
  }

  /** The skip test of the loop: the title was seen, or the link is non-empty and was seen. */
  predicate Collides(a: Record, kept: seq<Record>)
    requires Fingerprintable(a) && AllFingerprintable(kept)
  {
    TitleFingerprint(a) in SeenTitles(kept)
    || (LinkFingerprint(a) != "" && LinkFingerprint(a) in SeenLinks(kept))
  }

  /** What `filter_duplicates` keeps: each article in turn, unless it collides
      with one kept before it. */
  function Dedup(xs: seq<Record>): (r: seq<Record>)
    requires AllFingerprintable(xs)
    ensures forall a | a in r :: a in xs
  {
    if xs == [] then []
    else
      var kept := Dedup(xs[..|xs| - 1]);
      var a := xs[|xs| - 1];
      if Collides(a, kept) then kept else kept + [a]
  }

  /** Two articles share a title fingerprint. */
  predicate SameTitle(a: Record, b: Record)
    requires Fingerprintable(a) && Fingerprintable(b)
  {
    TitleFingerprint(a) == TitleFingerprint(b)
  }

  /** `b` has a non-empty link fingerprint and `a` has the same one. */
  predicate SameNonEmptyLink(a: Record, b: Record)
    requires Fingerprintable(a) && Fingerprintable(b)
  {
    LinkFingerprint(b) != "" && LinkFingerprint(a) == LinkFingerprint(b)
  }

  /** No two articles share a title fingerprint or a non-empty link fingerprint. */
  predicate FingerprintsDistinct(ys: seq<Record>)
    requires AllFingerprintable(ys)
  {
    forall i, j | 0 <= i < j < |ys| :: !SameTitle(ys[i], ys[j]) && !SameNonEmptyLink(ys[i], ys[j])
  }

  /** The article at position `i` is dropped exactly when an article kept
      before it has the same title fingerprint or the same non-empty link
      fingerprint; an empty link never causes a drop. */
  lemma DedupStep(xs: seq<Record>, i: nat)
    requires AllFingerprintable(xs) && i < |xs|
    ensures var kept := Dedup(xs[..i]);
      Dedup(xs[..i + 1]) ==
        if exists j | 0 <= j < |kept| :: SameTitle(kept[j], xs[i]) || SameNonEmptyLink(kept[j], xs[i])
        then kept else kept + [xs[i]]
  {
    assert xs[..i + 1][..i] == xs[..i];
    var kept := Dedup(xs[..i]);
    var a := xs[i];
    if Collides(a, kept) {
      if TitleFingerprint(a) in SeenTitles(kept) {
        var j :| 0 <= j < |kept| && TitleFingerprint(kept[j]) == TitleFingerprint(a);
        assert SameTitle(kept[j], a);
      } else {
        var j :| 0 <= j < |kept| && LinkFingerprint(kept[j]) == LinkFingerprint(a);
        assert SameNonEmptyLink(kept[j], a);
      }
    } else {
      forall j | 0 <= j < |kept|
        ensures !SameTitle(kept[j], a) && !SameNonEmptyLink(kept[j], a)
      {
        assert TitleFingerprint(kept[j]) in SeenTitles(kept);
        if LinkFingerprint(a) != "" && LinkFingerprint(kept[j]) == LinkFingerprint(a) {
          assert LinkFingerprint(a) in SeenLinks(kept);
        }
      }
    }
  }

  /** The kept articles are a subsequence of the input, in input order. */
  lemma {:induction false} DedupIsSubsequence(xs: seq<Record>)
    requires AllFingerprintable(xs)
    ensures IsSubsequence(Dedup(xs), xs)
    decreases |xs|
  {
    if xs == [] {
    } else {
      var p := xs[..|xs| - 1];
      DedupIsSubsequence(p);
      assert xs == p + [xs[|xs| - 1]];
      SubsequenceExtend(Dedup(p), p, xs[|xs| - 1]);
    }
  }

  /** No two kept articles share a title fingerprint or a non-empty link fingerprint. */
  lemma {:induction false} DedupFingerprintsDistinct(xs: seq<Record>)
    requires AllFingerprintable(xs)
    ensures FingerprintsDistinct(Dedup(xs))
    decreases |xs|
  {
    if xs != [] {
      var p := xs[..|xs| - 1];
      var kept := Dedup(p);
      var a := xs[|xs| - 1];
      DedupFingerprintsDistinct(p);
      if !Collides(a, kept) {
        var r := kept + [a];
        forall i, j | 0 <= i < j < |r|
          ensures !SameTitle(r[i], r[j]) && !SameNonEmptyLink(r[i], r[j])
        {
          if j == |kept| {
            assert r[i] == kept[i] && r[j] == a;
            assert TitleFingerprint(kept[i]) in SeenTitles(kept);
            assert LinkFingerprint(kept[i]) != "" ==> LinkFingerprint(kept[i]) in SeenLinks(kept);
          } else {
            assert r[i] == kept[i] && r[j] == kept[j];
          }
        }
      }
    }
  }

  lemma DistinctPrefix(ys: seq<Record>)
    requires AllFingerprintable(ys) && FingerprintsDistinct(ys) && ys != []
    ensures AllFingerprintable(ys[..|ys| - 1]) && FingerprintsDistinct(ys[..|ys| - 1])
  {
    var p := ys[..|ys| - 1];
    assert forall i | 0 <= i < |p| :: p[i] == ys[i];
  }

  lemma DistinctLastIsNew(ys: seq<Record>)
    requires AllFingerprintable(ys) && FingerprintsDistinct(ys) && ys != []
    ensures AllFingerprintable(ys[..|ys| - 1])
    ensures !Collides(ys[|ys| - 1], ys[..|ys| - 1])
  {
    var p := ys[..|ys| - 1];
    var a := ys[|ys| - 1];
    assert forall i | 0 <= i < |p| :: p[i] == ys[i];
  }

  /** An input whose fingerprints are already distinct passes unchanged. */
  lemma {:induction false} DedupOfDistinct(ys: seq<Record>)
    requires AllFingerprintable(ys) && FingerprintsDistinct(ys)
    ensures Dedup(ys) == ys
    decreases |ys|
  {
    if ys != [] {
      var p := ys[..|ys| - 1];
      DistinctPrefix(ys);
      DedupOfDistinct(p);
      DistinctLastIsNew(ys);
      assert p + [ys[|ys| - 1]] == ys;
    }
  }

  /** Filtering twice is filtering once. */
  lemma DedupIdempotent(xs: seq<Record>)
    requires AllFingerprintable(xs)
    ensures Dedup(Dedup(xs)) == Dedup(xs)
  {
    DedupFingerprintsDistinct(xs);
    DedupOfDistinct(Dedup(xs));
  }

  /** Titles collide case-insensitively: "X" then "x" keeps only the first. */
  lemma DedupFoldsTitleCase()
    ensures var a := map["title" := Str("X"), "link" := Str("http://a")];
            var b := map["title" := Str("x"), "link" := Str("http://b")];
            Dedup([a, b]) == [a]
  {
    var a := map["title" := Str("X"), "link" := Str("http://a")];
    var b := map["title" := Str("x"), "link" := Str("http://b")];
    assert Lower("X") == "x" && Lower("x") == "x";
    assert Strip("x") == "x" by { StripNoOuterSpace("x"); }
    assert [a, b][..1] == [a];
    assert [a][..0] == [];
    assert SameTitle(a, b);
    DedupStep([a, b], 1);
  }

  /** Links compare case-sensitively: different titles with links "http://a"
      and "http://A" are both kept. */
  lemma DedupKeepsLinkCase()
    ensures var a := map["title" := Str("A"), "link" := Str("http://a")];
            var b := map["title" := Str("B"), "link" := Str("http://A")];
            Dedup([a, b]) == [a, b]
  {
    var a := map["title" := Str("A"), "link" := Str("http://a")];
    var b := map["title" := Str("B"), "link" := Str("http://A")];
    assert Lower("A") == "a" && Lower("B") == "b";
    StripNoOuterSpace("a");
    StripNoOuterSpace("b");
    StripNoOuterSpace("http://a");
    StripNoOuterSpace("http://A");
    assert "http://a"[7] != "http://A"[7];
    assert FingerprintsDistinct([a, b]);
    DedupOfDistinct([a, b]);
  }

  /** `ArticleProcessor.filter_duplicates`: one pass that grows the two
      fingerprint sets and the list of unique articles. */
  method FilterDuplicates(articles: seq<Record>) returns (unique: seq<Record>)
    requires AllFingerprintable(articles)
    ensures unique == Dedup(articles)
  {
    unique := [];
    var seenLinks: set<string> := {};
    var seenTitles: set<string> := {};
    for i := 0 to |articles|
      invariant unique == Dedup(articles[..i])
      invariant seenTitles == SeenTitles(unique)
      invariant seenLinks == SeenLinks(unique)
    {
      var article := articles[i];
      assert article in articles;
      var titleFingerprint := Strip(Lower(article["title"].s));
      var linkFingerprint := Strip(article["link"].s);
      assert articles[..i + 1][..i] == articles[..i];
      if titleFingerprint in seenTitles || (linkFingerprint != "" && linkFingerprint in seenLinks) {
        continue;
      }
      seenTitles := seenTitles + {titleFingerprint};
      if linkFingerprint != "" {
        seenLinks := seenLinks + {linkFingerprint};
      }
      SeenSnoc(unique, article);
      unique := unique + [article];
    }
    assert articles[..|articles|] == articles;
  }

  /** `if value:` for an optional setting: set and non-empty. */
  predicate IsSet(o: Option<string>) {
    o.Some? && o.value != ""
  }

  /** `any(recipients)`: some recipient string is non-empty. */
  predicate AnyNonEmpty(recipients: seq<string>) {
    exists k | 0 <= k < |recipients| :: recipients[k] != ""
  }

  /** The settings of `TechNewsConfiguration` that decide whether email is sent. */
  class TechNewsConfiguration {
    var openaiApiKey: Option<string>
    var smtpEmail: Option<string>
    var smtpPassword: Option<string>
    var emailRecipients: seq<string>
    var shouldSendEmail: bool

    /** The settings as read from the environment, then validated. */
    constructor (openaiApiKey: Option<string>, smtpEmail: Option<string>,
                 smtpPassword: Option<string>, emailRecipients: seq<string>,
                 sendEmail: bool)
      ensures this.openaiApiKey == openaiApiKey && this.smtpEmail == smtpEmail
      ensures this.smtpPassword == smtpPassword && this.emailRecipients == emailRecipients
      ensures shouldSendEmail ==
        (sendEmail && IsSet(smtpEmail) && IsSet(smtpPassword) && AnyNonEmpty(emailRecipients))
    {
      this.openaiApiKey := openaiApiKey;
      this.smtpEmail := smtpEmail;
      this.smtpPassword := smtpPassword;
      this.emailRecipients := emailRecipients;
      this.shouldSendEmail := sendEmail;
      new;
      ValidateConfig();
    }

    /** `_validate_config`: email stays enabled only with both SMTP credentials
        and at least one non-empty recipient; it is never switched on. */
    method ValidateConfig()
      modifies this`shouldSendEmail
      ensures shouldSendEmail ==
        (old(shouldSendEmail) && IsSet(smtpEmail) && IsSet(smtpPassword) && AnyNonEmpty(emailRecipients))
    {
      if shouldSendEmail {
        if !IsSet(smtpEmail) || !IsSet(smtpPassword) {
          shouldSendEmail := false;
        }
        if emailRecipients == [] || !AnyNonEmpty(emailRecipients) {
          shouldSendEmail := false;
        }
      }
    }
  }
}
