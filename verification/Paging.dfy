/** Azure list pagers. A pager serves a finite sequence of pages and may fail instead
    of serving the page numbered `failAt`. */
module Paging {
  datatype Listing<T> = Listing(pages: seq<seq<T>>, failAt: nat) {
    /** No page fails. */
    predicate Complete() { failAt >= |pages| }

    /** The pages served before the failure, if there is one. */
    function Served(): seq<seq<T>> { if Complete() then pages else pages[..failAt] }

    /** Everything the pages hold, in order. */
    function All(): seq<T> { Flatten(pages) }
  }

  function Flatten<T>(pages: seq<seq<T>>): seq<T> {
    if pages == [] then [] else pages[0] + Flatten(pages[1..])
  }

  lemma {:induction false} FlattenConcat<T>(a: seq<seq<T>>, b: seq<seq<T>>)
    ensures Flatten(a + b) == Flatten(a) + Flatten(b)
  {
    if a == [] {
      assert a + b == b;
    } else {
      assert (a + b)[0] == a[0] && (a + b)[1..] == a[1..] + b;
      FlattenConcat(a[1..], b);
      assert a[0] + (Flatten(a[1..]) + Flatten(b)) == (a[0] + Flatten(a[1..])) + Flatten(b);
    }
  }

  lemma FlattenNext<T>(pages: seq<seq<T>>, i: nat)
    requires i < |pages|
    ensures Flatten(pages[..i + 1]) == Flatten(pages[..i]) + pages[i]
  {
    assert pages[..i + 1] == pages[..i] + [pages[i]];
    FlattenConcat(pages[..i], [pages[i]]);
    assert Flatten([pages[i]]) == pages[i] + Flatten([pages[i]][1..]);
  }

  /** A listing holds what its pages hold. */
  lemma {:induction false} FlattenMember<T>(pages: seq<seq<T>>, x: T)
    ensures x in Flatten(pages) <==> exists i :: 0 <= i < |pages| && x in pages[i]
  {
    if pages != [] {
      FlattenMember(pages[1..], x);
      if i :| 0 <= i < |pages[1..]| && x in pages[1..][i] {
        assert x in pages[i + 1];
      }
      if i :| 0 <= i < |pages| && x in pages[i] && i > 0 {
        assert x in pages[1..][i - 1];
      }
    }
  }

  /** What is served is what the first pages hold, then what is served after them. */
  lemma ServedFrom<T>(listing: Listing<T>, n: nat)
    requires n <= |listing.Served()|
    ensures Flatten(listing.Served()) == Flatten(listing.pages[..n]) + Flatten(listing.Served()[n..])
  {
    assert listing.Served() == listing.pages[..n] + listing.Served()[n..];
    FlattenConcat(listing.pages[..n], listing.Served()[n..]);
  }
}
