/** A page of results and how further pages extend it. */
module Pagination {
  import opened Wrappers

  /** `Page<T>`: the items fetched so far and the cursor of the next page, if any. */
  datatype Page<T> = Page(items: seq<T>, nextToken: Option<string>)
  {
    /** `appending(_:nextToken:)`: the new items go after the old ones and the new
        cursor replaces the old one. */
    function Appending(newItems: seq<T>, token: Option<string>): (r: Page<T>)
      ensures |r.items| == |items| + |newItems|
      ensures r.items[..|items|] == items && r.items[|items|..] == newItems
      ensures r.nextToken == token
    {
      Page(items + newItems, token)
    }
  }

  /** Appending nothing under the page's own cursor leaves the page as it was. */
  lemma AppendingNothing<T>(p: Page<T>)
    ensures p.Appending([], p.nextToken) == p
  {
    assert p.items + [] == p.items;
  }

  /** Two appends are one append of both batches under the last cursor. */
  lemma AppendingTwice<T>(p: Page<T>, a: seq<T>, t1: Option<string>, b: seq<T>, t2: Option<string>)
    ensures p.Appending(a, t1).Appending(b, t2) == p.Appending(a + b, t2)
  {
    assert p.items + a + b == p.items + (a + b);
  }
}
