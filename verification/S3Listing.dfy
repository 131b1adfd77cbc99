/** The merge of S3 listing pages into one directory listing
  * (vfs/s3fs/s3vfs.go, ReadDir).
  */
module S3Listing {
  import opened Wrappers
  import opened Lexical

  /** An entry of a directory listing: an object or a common prefix. */
  datatype Entry = Object(key: string, size: int) | CommonPrefix(key: string)

  datatype Page = Page(contents: seq<Entry>, prefixes: seq<Entry>)

  /** All keys of `es` come after `key`. */
  predicate Below(key: string, es: seq<Entry>) {
    forall e :: e in es ==> Less(key, e.key)
  }

  predicate Ascending(es: seq<Entry>) {
    es == [] || (Below(es[0].key, es[1..]) && Ascending(es[1..]))
  }

  /** The inner loops of ReadDir on one page; a prefix goes first on a tie. */
  function Merge(contents: seq<Entry>, prefixes: seq<Entry>): seq<Entry>
    decreases |contents| + |prefixes|
  {
    if contents == [] then prefixes
    else if prefixes == [] then contents
    else if Less(contents[0].key, prefixes[0].key) then [contents[0]] + Merge(contents[1..], prefixes)
    else [prefixes[0]] + Merge(contents, prefixes[1..])
  }

  function MergeAll(pages: seq<Page>): seq<Entry> {
    if pages == [] then [] else Merge(pages[0].contents, pages[0].prefixes) + MergeAll(pages[1..])
  }

  function Entries(pages: seq<Page>): multiset<Entry> {
    if pages == [] then multiset{} else multiset(pages[0].contents) + multiset(pages[0].prefixes) + Entries(pages[1..])
  }

  predicate Disjoint(a: seq<Entry>, b: seq<Entry>) {
    forall x, y :: x in a && y in b ==> x.key != y.key
  }

  /** What S3 promises of a listing: each list of a page is strictly ascending,
    * the two share no key, and later pages hold later keys. */
  ghost predicate Ordered(pages: seq<Page>) {
    pages == [] ||
    (&& Ascending(pages[0].contents) && Ascending(pages[0].prefixes)
     && Disjoint(pages[0].contents, pages[0].prefixes)
     && (forall e, f :: (e in pages[0].contents || e in pages[0].prefixes) && f in Entries(pages[1..]) ==>
           Less(e.key, f.key))
     && Ordered(pages[1..]))
  }

  lemma MultisetCons<T>(x: T, s: seq<T>)
    ensures multiset([x] + s) == multiset{x} + multiset(s)
  {
  }

  lemma MultisetHead<T>(s: seq<T>)
    requires s != []
    ensures multiset(s) == multiset{s[0]} + multiset(s[1..])
  {
    assert s == [s[0]] + s[1..];
  }

  lemma {:induction false} MergeKeepsEntries(c: seq<Entry>, p: seq<Entry>)
    ensures multiset(Merge(c, p)) == multiset(c) + multiset(p)
    decreases |c| + |p|
  {
    if c != [] && p != [] {
      if Less(c[0].key, p[0].key) {
        MergeKeepsEntries(c[1..], p);
        MultisetHead(c);
        MultisetCons(c[0], Merge(c[1..], p));
      } else {
        MergeKeepsEntries(c, p[1..]);
        MultisetHead(p);
        MultisetCons(p[0], Merge(c, p[1..]));
      }
    }
  }

  lemma MergeHasEntries(c: seq<Entry>, p: seq<Entry>, e: Entry)
    ensures e in Merge(c, p) <==> e in c || e in p
  {
    MergeKeepsEntries(c, p);
    assert e in multiset(Merge(c, p)) <==> e in multiset(c) + multiset(p);
  }

  lemma BelowHead(key: string, es: seq<Entry>)
    requires es != [] && Ascending(es) && Less(key, es[0].key)
    ensures Below(key, es)
  {
    forall e | e in es ensures Less(key, e.key) {
      if e != es[0] {
        assert e in es[1..];
        LessTransitive(key, es[0].key, e.key);
      }
    }
  }

  lemma {:induction false} MergeAscends(c: seq<Entry>, p: seq<Entry>)
    requires Ascending(c) && Ascending(p) && Disjoint(c, p)
    ensures Ascending(Merge(c, p))
    decreases |c| + |p|
  {
    if c != [] && p != [] {
      LessTotal(c[0].key, p[0].key);
      assert c[0] in c && p[0] in p;
      var first := Less(c[0].key, p[0].key);
      var head := if first then c[0] else p[0];
      var rest := if first then Merge(c[1..], p) else Merge(c, p[1..]);
      if first {
        MergeAscends(c[1..], p);
        BelowHead(c[0].key, p);
      } else {
        MergeAscends(c, p[1..]);
        BelowHead(p[0].key, c);
      }
      forall e | e in rest ensures Less(head.key, e.key) {
        if first { MergeHasEntries(c[1..], p, e); } else { MergeHasEntries(c, p[1..], e); }
      }
      assert Merge(c, p)[1..] == rest;
    }
  }

  lemma {:induction false} AscendingConcat(a: seq<Entry>, b: seq<Entry>)
    requires Ascending(a) && Ascending(b) && forall x, y :: x in a && y in b ==> Less(x.key, y.key)
    ensures Ascending(a + b)
  {
    if a == [] {
      assert a + b == b;
    } else {
      assert a[0] in a && (forall x :: x in a[1..] ==> x in a);
      AscendingConcat(a[1..], b);
      assert (a + b)[1..] == a[1..] + b;
      forall e | e in a[1..] + b ensures Less(a[0].key, e.key) {}
    }
  }

  /** The listing holds exactly the entries of the pages, whatever their order. */
  lemma {:induction false} ListingKeepsEntries(pages: seq<Page>)
    ensures multiset(MergeAll(pages)) == Entries(pages)
  {
    if pages != [] {
      MergeKeepsEntries(pages[0].contents, pages[0].prefixes);
      ListingKeepsEntries(pages[1..]);
    }
  }

  /** From ordered pages it is strictly ascending. */
  lemma {:induction false} ListingAscends(pages: seq<Page>)
    requires Ordered(pages)
    ensures Ascending(MergeAll(pages))
  {
    if pages != [] {
      var c, p := pages[0].contents, pages[0].prefixes;
      MergeAscends(c, p);
      ListingAscends(pages[1..]);
      ListingKeepsEntries(pages[1..]);
      forall x, y | x in Merge(c, p) && y in MergeAll(pages[1..]) ensures Less(x.key, y.key) {
        MergeHasEntries(c, p, x);
        assert y in multiset(MergeAll(pages[1..]));
      }
      AscendingConcat(Merge(c, p), MergeAll(pages[1..]));
    }
  }

  lemma SameHead(a: seq<Entry>, b: seq<Entry>)
    requires a != [] && b != [] && Ascending(a) && Ascending(b) && multiset(a) == multiset(b)
    ensures a[0] == b[0]
  {
    assert a[0] in multiset(b) && b[0] in multiset(a);
    if a[0] != b[0] {
      assert a[0] in b[1..] && b[0] in a[1..];
      LessTransitive(a[0].key, b[0].key, a[0].key);
      LessIrreflexive(a[0].key);
    }
  }

  /** A strictly ascending list is determined by its entries. */
  lemma {:induction false} AscendingIsUnique(a: seq<Entry>, b: seq<Entry>)
    requires Ascending(a) && Ascending(b) && multiset(a) == multiset(b)
    ensures a == b
  {
    assert |multiset(a)| == |a| && |multiset(b)| == |b|;
    if a != [] {
      SameHead(a, b);
      MultisetHead(a);
      MultisetHead(b);
      assert multiset(a[1..]) == multiset(a) - multiset{a[0]} && multiset(b[1..]) == multiset(b) - multiset{b[0]};
      AscendingIsUnique(a[1..], b[1..]);
      assert a == [a[0]] + a[1..] && b == [b[0]] + b[1..];
    }
  }

  /** Two ways to cut the same entries into ordered pages give one listing. */
  lemma PagingDoesNotMatter(these: seq<Page>, those: seq<Page>)
    requires Ordered(these) && Ordered(those) && Entries(these) == Entries(those)
    ensures MergeAll(these) == MergeAll(those)
  {
    ListingAscends(these);
    ListingAscends(those);
    ListingKeepsEntries(these);
    ListingKeepsEntries(those);
    AscendingIsUnique(MergeAll(these), MergeAll(those));
  }

  // -------------------------------------------------------------- the code

  lemma {:induction false} MergeAllSnoc(pages: seq<Page>, page: Page)
    ensures MergeAll(pages + [page]) == MergeAll(pages) + Merge(page.contents, page.prefixes)
  {
    if pages == [] {
      assert pages + [page] == [page];
      assert [page][1..] == [];
    } else {
      MergeAllSnoc(pages[1..], page);
      assert (pages + [page])[1..] == pages[1..] + [page];
      assert Merge(pages[0].contents, pages[0].prefixes) + (MergeAll(pages[1..]) + Merge(page.contents, page.prefixes))
          == MergeAll(pages) + Merge(page.contents, page.prefixes);
    }
  }

  /** The pages before the first one that fails. */
  function Fetched(answers: seq<Option<Page>>): seq<Page> {
    if answers == [] || answers[0].None? then [] else [answers[0].value] + Fetched(answers[1..])
  }

  predicate OnPage(answer: Option<Page>, e: Entry) {
    answer.Some? && (e in answer.value.contents || e in answer.value.prefixes)
  }

  /** How often entry `e` is on the answered pages. */
  function Occurrences(answers: seq<Option<Page>>, e: Entry): nat {
    if answers == [] then 0
    else
      (if answers[0].None? then 0 else multiset(answers[0].value.contents)[e] + multiset(answers[0].value.prefixes)[e])
      + Occurrences(answers[1..], e)
  }

  /** Without an error every page is fetched, in order. */
  lemma {:induction false} EveryPageIsFetched(answers: seq<Option<Page>>)
    requires None !in answers
    ensures |Fetched(answers)| == |answers|
    ensures forall i :: 0 <= i < |answers| ==> answers[i].Some? && Fetched(answers)[i] == answers[i].value
  {
    if answers != [] {
      assert answers[0] in answers && forall a :: a in answers[1..] ==> a in answers;
      EveryPageIsFetched(answers[1..]);
      assert Fetched(answers)[1..] == Fetched(answers[1..]);
      forall i | 0 < i < |answers| ensures answers[i].Some? && Fetched(answers)[i] == answers[i].value {
        assert answers[1..][i - 1] == answers[i];
        assert Fetched(answers)[i] == Fetched(answers[1..])[i - 1];
      }
    }
  }

  lemma {:induction false} EveryEntryIsFetched(answers: seq<Option<Page>>, e: Entry)
    requires None !in answers
    ensures Entries(Fetched(answers))[e] == Occurrences(answers, e)
  {
    if answers != [] {
      assert answers[0] in answers && forall a :: a in answers[1..] ==> a in answers;
      EveryEntryIsFetched(answers[1..], e);
      assert Fetched(answers)[1..] == Fetched(answers[1..]);
    }
  }

  lemma {:induction false} PageIsCounted(answers: seq<Option<Page>>, i: nat, e: Entry)
    requires i < |answers| && OnPage(answers[i], e)
    ensures Occurrences(answers, e) > 0
  {
    if i > 0 { PageIsCounted(answers[1..], i - 1, e); }
  }

  /** Without an error the listing holds each entry as often as the answers do, and
    * ascends if the pages do. */
  lemma ListingIsComplete(answers: seq<Option<Page>>)
    requires None !in answers
    ensures var all := MergeAll(Fetched(answers));
            && (forall e :: multiset(all)[e] == Occurrences(answers, e))
            && (forall i, e :: 0 <= i < |answers| && OnPage(answers[i], e) ==> e in all)
            && (Ordered(Fetched(answers)) ==> Ascending(all))
  {
    var pages := Fetched(answers);
    ListingKeepsEntries(pages);
    if Ordered(pages) { ListingAscends(pages); }
    forall e ensures multiset(MergeAll(pages))[e] == Occurrences(answers, e) {
      EveryEntryIsFetched(answers, e);
    }
    forall i, e | 0 <= i < |answers| && OnPage(answers[i], e) ensures e in MergeAll(pages) {
      PageIsCounted(answers, i, e);
      assert multiset(MergeAll(pages))[e] > 0;
    }
  }

  /** The body of ReadDir's loop over the pages. */
  method AppendPage(before: seq<Entry>, page: Page) returns (res: seq<Entry>)
    ensures res == before + Merge(page.contents, page.prefixes)
  {
    res := before;
    var contents, prefixes := page.contents, page.prefixes;
    while |contents| > 0 && |prefixes| > 0
      invariant res + Merge(contents, prefixes) == before + Merge(page.contents, page.prefixes)
      decreases |contents| + |prefixes|
    {
      if Less(contents[0].key, prefixes[0].key) {
        res := res + [contents[0]];
        contents := contents[1..];
      } else {
        res := res + [prefixes[0]];
        prefixes := prefixes[1..];
      }
    }
    res := res + contents;
    res := res + prefixes;
  }

  /** FileSystem.ReadDir; `answers` are the paginator's pages, None an error. */
  method ReadDir(answers: seq<Option<Page>>) returns (r: Result<seq<Entry>, ()>)
    ensures None in answers ==> r == Err(())
    ensures None !in answers ==> r == Ok(MergeAll(Fetched(answers)))
    ensures r.Ok? ==> forall e :: multiset(r.value)[e] == Occurrences(answers, e)
    ensures r.Ok? ==> forall i, e :: 0 <= i < |answers| && OnPage(answers[i], e) ==> e in r.value
    ensures r.Ok? && Ordered(Fetched(answers)) ==> Ascending(r.value)
  {
    var res := [];
    ghost var done := [];
    for i := 0 to |answers|
      invariant None !in answers[..i]
      invariant res == MergeAll(done)
      invariant None !in answers ==> Fetched(answers) == done + Fetched(answers[i..])
    {
      if answers[i].None? { return Err(()); }
      var page := answers[i].value;
      res := AppendPage(res, page);
      MergeAllSnoc(done, page);
      assert answers[i..][1..] == answers[i + 1..];
      assert answers[..i + 1] == answers[..i] + [answers[i]];
      done := done + [page];
    }
    assert answers[..|answers|] == answers && answers[|answers|..] == [];
    assert done + [] == done;
    r := Ok(res);
    ListingIsComplete(answers);
  }
}
