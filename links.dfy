/** The relative-to-absolute link rule the scrapers share: a link that does
    not start with "http" is appended to the site's base URL. */
module Links {
  import opened Text

  function AbsoluteLink(base: string, link: string): (r: string)
    ensures StartsWith(link, "http") ==> r == link
    ensures !StartsWith(link, "http") ==> r == base + link
  {
    if StartsWith(link, "http") then link else base + link
  }

  lemma PrefixOfPrefix(p: string, q: string, s: string)
    requires p <= q && q <= s
    ensures p <= s
  {
    assert s[..|p|] == q[..|p|];
  }

  /** With an http(s) base, every resulting link starts with "http"; the
      rule is then idempotent, and a relative link keeps its path as a
      suffix. */
  lemma AbsoluteLinkIsAbsolute(base: string, link: string)
    requires StartsWith(base, "http")
    ensures StartsWith(AbsoluteLink(base, link), "http")
    ensures AbsoluteLink(base, AbsoluteLink(base, link)) == AbsoluteLink(base, link)
    ensures !StartsWith(link, "http") ==> AbsoluteLink(base, link)[|base|..] == link
  {
    if !StartsWith(link, "http") {
      PrefixOfPrefix("http", base, base + link);
    }
  }
}
