/** Ordered cascades of candidate selectors, as the scrapers write them with
    Python's `or`: each candidate is the result of one selector on the
    parsed page, and the first one that matched wins. */
module Selectors {
  import opened Values

  /** A parsed page element: its text as `get_text(strip=True)` returns it
      and its attributes. */
  datatype Element = Element(text: string, attrs: map<string, string>)

  /** A fetched page: its HTTP status and what the selectors found on it;
      `None` in its place when the request raised. */
  datatype Response<P> = Response(status: int, page: P)

  /** `element and element.get(name)`: the element exists and the attribute
      is present and non-empty. */
  predicate HasNonEmptyAttr(e: Option<Element>, name: string) {
    e.Some? && name in e.value.attrs && e.value.attrs[name] != ""
  }

  /** `soup.select(a) or soup.select(b) or ...`: the first non-empty match
      list; empty when every selector matched nothing. */
  function FirstNonEmpty<T>(candidates: seq<seq<T>>): (r: seq<T>)
    ensures r == [] <==> forall i | 0 <= i < |candidates| :: candidates[i] == []
    ensures r != [] ==>
      exists k | 0 <= k < |candidates| ::
        r == candidates[k] && forall j | 0 <= j < k :: candidates[j] == []
  {
    if candidates == [] then []
    else if candidates[0] != [] then candidates[0]
    else
      var r := FirstNonEmpty(candidates[1..]);
      assert forall i | 1 <= i < |candidates| :: candidates[i] == candidates[1..][i - 1];
      r
  }

  /** `item.select_one(a) or item.select_one(b) or ...`: the first selector
      that found an element (a found element is always truthy); `None` when
      none did. */
  function FirstPresent<T>(candidates: seq<Option<T>>): (r: Option<T>)
    ensures r.None? <==> forall i | 0 <= i < |candidates| :: candidates[i].None?
    ensures r.Some? ==>
      exists k | 0 <= k < |candidates| ::
        r == candidates[k] && forall j | 0 <= j < k :: candidates[j].None?
  {
    if candidates == [] then None
    else if candidates[0].Some? then candidates[0]
    else
      var r := FirstPresent(candidates[1..]);
      assert forall i | 1 <= i < |candidates| :: candidates[i] == candidates[1..][i - 1];
      r
  }
}
