/** The calls into the two remote stores (cmd/awsenvsec/aws.go): fetching one secret's value,
    and gathering the pages of a listing. The service is input data: a listing is the
    sequence of page responses the paginator would receive, and a fetch is a function of
    the secret's name. */
module Aws {

  /** o.Limit: the page size asked of the service. */
  const PageLimit: nat := 10
  /** The cap on pages read in one listing. */
  const MaxPages: nat := 50

  /** SMSecrets: one entry of a Secrets Manager listing. */
  datatype Secret = Secret(name: string)

  /** PSSecrets: one parameter of a Parameter Store listing, value already decrypted. */
  datatype Parameter = Parameter(name: string, value: string)

  /** One response of a paginator: the items of a page, or an error. */
  datatype Page<T> = Page(items: seq<T>) | PageError

  /** One response of GetSecretValue. */
  datatype SecretValue = SecretString(text: string) | FetchError

  /** decryptSecret: the secret's text, or the empty string (the unassigned named result)
      when the fetch fails. */
  function DecryptSecret(fetch: string -> SecretValue, name: string): (s: string)
    ensures fetch(name).FetchError? ==> s == ""
    ensures fetch(name).SecretString? ==> s == fetch(name).text
  {
    match fetch(name)
    case SecretString(text) => text
    case FetchError => ""
  }

  function Min(a: nat, b: nat): nat
  {
    if a < b then a else b
  }

  /** The responses the loop asks for: it reads while more pages exist and fewer than
      MaxPages have been read. */
  function PagesRead<T>(pages: seq<Page<T>>): seq<Page<T>>
  {
    pages[..Min(|pages|, MaxPages)]
  }

  predicate AllOk<T>(ps: seq<Page<T>>)
  {
    forall i :: 0 <= i < |ps| ==> ps[i].Page?
  }

  function ItemsOf<T>(p: Page<T>): seq<T>
  {
    if p.Page? then p.items else []
  }

  /** The items of the pages, in page order and then in-page order. */
  function Flatten<T>(ps: seq<Page<T>>): seq<T>
  {
    if ps == [] then [] else Flatten(ps[..|ps| - 1]) + ItemsOf(ps[|ps| - 1])
  }

  /** What getAllSecrets / getAllParameters return for a listing: the items of the pages
      read, or nothing at all when one of those pages is an error. A Go nil slice and an
      empty one are the same value here: the function's slice is only ever non-nil after
      an item was appended. */
  function Listed<T>(pages: seq<Page<T>>): (r: seq<T>)
    ensures r != [] ==> AllOk(PagesRead(pages)) && r == Flatten(PagesRead(pages))
  {
    var read := PagesRead(pages);
    if AllOk(read) then Flatten(read) else []
  }

  /** The paging loop of getAllSecrets (aws.go:117-136) and getAllParameters
      (aws.go:190-211). `output` stands for the named result, which the loop never assigns:
      an error returns it as it was, nil, and drops what was gathered. */
  method GetAllPages<T>(pages: seq<Page<T>>) returns (output: seq<T>)
    ensures output == Listed(pages)
  {
    output := [];
    var pageNum := 0;
    var results: seq<T> := [];
    while pageNum < |pages| && pageNum < MaxPages
      invariant 0 <= pageNum <= |pages| && pageNum <= MaxPages
      invariant AllOk(pages[..pageNum])
      invariant results == Flatten(pages[..pageNum])
    {
      var page := pages[pageNum];
      if page.PageError? {
        assert PagesRead(pages)[pageNum] == page;
        return;
      }
      var i := 0;
      while i < |page.items|
        invariant 0 <= i <= |page.items|
        invariant results == Flatten(pages[..pageNum]) + page.items[..i]
      {
        results := results + [page.items[i]];
        i := i + 1;
      }
      assert pages[..pageNum + 1][..pageNum] == pages[..pageNum];
      assert page.items[..i] == page.items;
      pageNum := pageNum + 1;
    }
    assert pages[..pageNum] == PagesRead(pages);
    output := results;
  }

  lemma {:induction false} FlattenAppend<T>(a: seq<Page<T>>, b: seq<Page<T>>)
    ensures Flatten(a + b) == Flatten(a) + Flatten(b)
    decreases |b|
  {
    if b == [] {
      assert a + b == a;
    } else {
      assert (a + b)[..|a + b| - 1] == a + b[..|b| - 1];
      FlattenAppend(a, b[..|b| - 1]);
    }
  }

  lemma {:induction false} FlattenBound<T>(ps: seq<Page<T>>)
    requires forall i :: 0 <= i < |ps| ==> |ItemsOf(ps[i])| <= PageLimit
    ensures |Flatten(ps)| <= PageLimit * |ps|
    decreases |ps|
  {
    if ps != [] {
      FlattenBound(ps[..|ps| - 1]);
    }
  }

  lemma {:induction false} FlattenFull<T>(ps: seq<Page<T>>)
    requires forall i :: 0 <= i < |ps| ==> |ItemsOf(ps[i])| == PageLimit
    ensures |Flatten(ps)| == PageLimit * |ps|
    decreases |ps|
  {
    if ps != [] {
      FlattenFull(ps[..|ps| - 1]);
    }
  }

  /** With pages of at most PageLimit items, a listing returns at most 500 items. */
  lemma ListedBound<T>(pages: seq<Page<T>>)
    requires forall i :: 0 <= i < |pages| ==> |ItemsOf(pages[i])| <= PageLimit
    ensures |Listed(pages)| <= MaxPages * PageLimit
  {
    var read := PagesRead(pages);
    if AllOk(read) {
      FlattenBound(read);
    }
  }

  /** A store with 50 full pages, and maybe more, yields exactly 500 items, and no error. */
  lemma ListedAtCap<T>(pages: seq<Page<T>>)
    requires |pages| >= MaxPages
    requires forall i :: 0 <= i < MaxPages ==> pages[i].Page? && |pages[i].items| == PageLimit
    ensures |Listed(pages)| == MaxPages * PageLimit
  {
    FlattenFull(PagesRead(pages));
  }

  /** Pages after the fiftieth are never read. */
  lemma ListedIgnoresLaterPages<T>(pages: seq<Page<T>>, more: seq<Page<T>>)
    requires |pages| >= MaxPages
    ensures Listed(pages + more) == Listed(pages)
  {
    assert PagesRead(pages + more) == PagesRead(pages);
  }

  /** An error on any page read discards every item gathered before it. */
  lemma ListedErrorDiscards<T>(pages: seq<Page<T>>, k: nat)
    requires k < |pages| && k < MaxPages && pages[k].PageError?
    ensures Listed(pages) == []
  {
    assert PagesRead(pages)[k] == pages[k];
  }

  /** A listing comes back empty (nil) exactly when a page read failed or every page read
      was empty; the caller cannot tell the two apart. */
  lemma {:induction false} ListedEmptyIff<T>(pages: seq<Page<T>>)
    ensures Listed(pages) == [] <==>
      (!AllOk(PagesRead(pages)) || forall i :: 0 <= i < |PagesRead(pages)| ==> ItemsOf(PagesRead(pages)[i]) == [])
  {
    FlattenEmptyIff(PagesRead(pages));
  }

  lemma {:induction false} FlattenEmptyIff<T>(ps: seq<Page<T>>)
    ensures Flatten(ps) == [] <==> forall i :: 0 <= i < |ps| ==> ItemsOf(ps[i]) == []
    decreases |ps|
  {
    if ps != [] {
      var init := ps[..|ps| - 1];
      FlattenEmptyIff(init);
      assert forall i :: 0 <= i < |init| ==> init[i] == ps[i];
    }
  }

  /** Item j of page k, when every page read succeeded, sits in the result after the
      items of the pages before k: page order first, then in-page order. */
  lemma ListedInOrder<T>(pages: seq<Page<T>>, k: nat, j: nat)
    requires AllOk(PagesRead(pages))
    requires k < |PagesRead(pages)| && j < |pages[k].items|
    ensures |Flatten(pages[..k])| + j < |Listed(pages)|
    ensures Listed(pages)[|Flatten(pages[..k])| + j] == pages[k].items[j]
  {
    var read := PagesRead(pages);
    assert read == pages[..k] + [pages[k]] + read[k + 1..];
    FlattenAppend(pages[..k] + [pages[k]], read[k + 1..]);
    FlattenAppend(pages[..k], [pages[k]]);
    assert Flatten([pages[k]]) == pages[k].items by {
      assert [pages[k]][..0] == [];
    }
  }

  /** Every returned item is an item of a page that was read, unchanged; for parameters,
      name and value stay paired. */
  lemma {:induction false} ListedFromPages<T>(pages: seq<Page<T>>, x: T)
    requires x in Listed(pages)
    ensures exists k :: 0 <= k < |pages| && k < MaxPages && pages[k].Page? && x in pages[k].items
  {
    var read := PagesRead(pages);
    var k := FlattenMember(read, x);
    assert read[k] == pages[k];
  }

  lemma {:induction false} FlattenMember<T>(ps: seq<Page<T>>, x: T) returns (k: nat)
    requires x in Flatten(ps)
    ensures k < |ps| && ps[k].Page? && x in ps[k].items
    decreases |ps|
  {
    var init := ps[..|ps| - 1];
    if x in Flatten(init) {
      k := FlattenMember(init, x);
      assert init[k] == ps[k];
    } else {
      k := |ps| - 1;
    }
  }
}
