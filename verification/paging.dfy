/** Batching and paging of quote requests: every code is asked for exactly once, in order. */
module Paging {
  import opened Tokenize

  function Flatten(lists: seq<seq<string>>): (all: seq<string>)
    decreases |lists|
  {
    if lists == [] then [] else Flatten(lists[..|lists| - 1]) + lists[|lists| - 1]
  }

  lemma FlattenSnoc(lists: seq<seq<string>>, last: seq<string>)
    ensures Flatten(lists + [last]) == Flatten(lists) + last
  {
    assert (lists + [last])[..|lists|] == lists;
  }

  lemma NoLists()
    ensures Flatten([]) == []
  {
  }

  const BATCH_SIZE := 30

  /** MarketDataProvider::update_quotes: full batches of 30 codes and the rest. */
  method Batches(codes: seq<string>) returns (batches: seq<seq<string>>)
    ensures Flatten(batches) == codes
    ensures forall b <- batches :: 1 <= |b| <= BATCH_SIZE
    ensures forall i :: 0 <= i < |batches| - 1 ==> |batches[i]| == BATCH_SIZE
    ensures |batches| == (|codes| + 29) / 30
  {
    hide Flatten;
    assert Flatten([]) == [] by { NoLists(); }
    var batch: seq<string> := [];
    batches := [];
    for i := 0 to |codes|
      invariant Flatten(batches) + batch == codes[..i]
      invariant |batch| < BATCH_SIZE && i == |batches| * 30 + |batch|
      invariant forall b <- batches :: |b| == BATCH_SIZE
    {
      batch := batch + [codes[i]];
      assert codes[..i + 1] == codes[..i] + [codes[i]];
      if |batch| == BATCH_SIZE {
        FlattenSnoc(batches, batch);
        batches := batches + [batch];
        batch := [];
      }
    }
    assert codes[..|codes|] == codes;
    if |batch| > 0 {
      FlattenSnoc(batches, batch);
      batches := batches + [batch];
    }
  }

  // ---- Pages -------------------------------------------------------------------------------

  predicate EndsWith(s: string, suffix: string)
  {
    |suffix| <= |s| && s[|s| - |suffix|..] == suffix
  }

  function FirstSix(s: string): (r: string)
  {
    if |s| < 6 then s else s[..6]
  }

  /** convert_to_inner_code: the exchange goes to the front. */
  function InnerCode(code: string): (r: string)
  {
    if EndsWith(code, ".SH") then "sh" + FirstSix(code)
    else if EndsWith(code, ".SZ") then "sz" + FirstSix(code)
    else code
  }

  /** A code of an exchange becomes the exchange's two letters and the first six characters. */
  lemma InnerCodeIs(number: string)
    requires |number| >= 6
    ensures InnerCode(number + ".SH") == "sh" + number[..6]
    ensures InnerCode(number + ".SZ") == "sz" + number[..6]
  {
    var h, z := number + ".SH", number + ".SZ";
    assert h[|h| - 3..] == ".SH" && z[|z| - 3..] == ".SZ";
    assert z[|z| - 1] == 'Z';
    assert h[..6] == number[..6] && z[..6] == number[..6];
  }

  function InnerCodes(codes: seq<string>): (r: seq<string>)
    ensures |r| == |codes|
  {
    seq(|codes|, i requires 0 <= i < |codes| => InnerCode(codes[i]))
  }

  function PageUrl(page: seq<string>): (url: string)
  {
    "/list=" + Join(InnerCodes(page), ',')
  }

  /** One more code on a page's URL. */
  lemma OneMoreCode(page: seq<string>, code: string)
    ensures PageUrl(page + [code]) == PageUrl(page) + (if page == [] then "" else ",") + InnerCode(code)
  {
    hide InnerCode;
    assert InnerCodes(page + [code]) == InnerCodes(page) + [InnerCode(code)];
    JoinSnoc(InnerCodes(page), InnerCode(code));
  }

  lemma JoinSnoc(words: seq<string>, word: string)
    ensures Join(words + [word], ',') == Join(words, ',') + (if words == [] then "" else ",") + word
  {
    assert (words + [word])[..|words|] == words;
    if words == [] {
      assert words + [word] == [word];
    }
  }

  /** One page of a request: its codes joined with commas, none behind the last.  The index
      start + i is always in range. */
  method PageOf(codes: seq<string>, start: nat, pageSize: nat) returns (url: string, page: seq<string>)
    requires start < |codes| && pageSize > 0
    ensures page == codes[start..PageEnd(start, pageSize, |codes|)]
    ensures url == PageUrl(page)
  {
    hide InnerCode, PageUrl;
    url := "/list=";
    page := [];
    EmptyUrl();
    for i := 0 to pageSize
      invariant start + i < |codes| || i == pageSize
      invariant start + i <= |codes| && page == codes[start..start + i]
      invariant url == PageUrl(page) + (if 0 < i < pageSize then "," else "")
    {
      var code := codes[start + i];
      OneMoreCode(page, code);
      url := url + InnerCode(code);
      page := page + [code];
      if start + i + 1 == |codes| {
        break;
      }
      if i + 1 != pageSize {
        url := url + ",";
      }
    }
  }

  lemma EmptyUrl()
    ensures PageUrl([]) == "/list="
  {
    assert InnerCodes([]) == [];
  }

  /** Where the page that begins at a position ends. */
  function PageEnd(start: nat, pageSize: nat, len: nat): (end: nat)
  {
    if start + pageSize < len then start + pageSize else len
  }

  /** What the pages of a request must be: the codes so far once, in order, in full pages but
      for the last one, which is not empty. */
  ghost predicate ArePages(pages: seq<seq<string>>, codes: seq<string>, pageSize: nat)
  {
    && Flatten(pages) == codes
    && (forall p <- pages :: 1 <= |p| <= pageSize)
    && (forall i :: 0 <= i < |pages| - 1 ==> |pages[i]| == pageSize)
  }

  ghost predicate AllFull(pages: seq<seq<string>>, pageSize: nat)
  {
    forall p <- pages :: |p| == pageSize
  }

  ghost predicate AreUrls(urls: seq<string>, pages: seq<seq<string>>)
  {
    |urls| == |pages| && forall i :: 0 <= i < |pages| ==> urls[i] == PageUrl(pages[i])
  }

  lemma UrlsConcat(urls: seq<string>, pages: seq<seq<string>>, us: seq<string>, ps: seq<seq<string>>)
    requires AreUrls(urls, pages) && AreUrls(us, ps)
    ensures AreUrls(urls + us, pages + ps)
  {
    hide PageUrl;
  }

  /** A page behind full ones. */
  lemma PagesSnoc(pages: seq<seq<string>>, codes: seq<string>, start: nat, pageSize: nat)
    requires start < |codes| && pageSize > 0
    requires ArePages(pages, codes[..start], pageSize) && AllFull(pages, pageSize)
    ensures var end := PageEnd(start, pageSize, |codes|);
            && ArePages(pages + [codes[start..end]], codes[..end], pageSize)
            && (end == start + pageSize ==> AllFull(pages + [codes[start..end]], pageSize))
  {
    hide Flatten;
    var end := PageEnd(start, pageSize, |codes|);
    FlattenSnoc(pages, codes[start..end]);
    assert codes[..start] + codes[start..end] == codes[..end];
  }

  /** SinaApi::get_quotes: every page begins inside the list. */
  method GetQuotes(codes: seq<string>, pageSize: nat) returns (urls: seq<string>, pages: seq<seq<string>>)
    requires pageSize > 0
    ensures ArePages(pages, codes, pageSize) && AreUrls(urls, pages)
  {
    hide ArePages, AllFull, PageUrl;
    urls, pages := [], [];
    var pageNum := (|codes| + pageSize - 1) / pageSize;
    PageCount(|codes|, pageSize);
    ghost var end := 0;
    NoPages(pageSize);
    for n := 0 to pageNum
      invariant end == (if n * pageSize < |codes| then n * pageSize else |codes|)
      invariant ArePages(pages, codes[..end], pageSize) && AreUrls(urls, pages)
      invariant end == n * pageSize ==> AllFull(pages, pageSize)
    {
      PageStarts(n, pageNum, pageSize, |codes|);
      var url, page := PageOf(codes, n * pageSize, pageSize);
      PagesSnoc(pages, codes, n * pageSize, pageSize);
      UrlsConcat(urls, pages, [url], [page]);
      urls := urls + [url];
      pages := pages + [page];
      NextStart(n, pageSize);
      end := PageEnd(n * pageSize, pageSize, |codes|);
    }
    assert codes[..|codes|] == codes;
  }

  lemma NoPages(pageSize: nat)
    ensures ArePages([], [], pageSize) && AllFull([], pageSize)
  {
  }

  lemma NextStart(n: nat, size: nat)
    ensures (n + 1) * size == n * size + size
  {
  }

  lemma PageCount(len: nat, size: nat)
    requires size > 0
    ensures var num := (len + size - 1) / size;
            num >= 0 && len <= num * size < len + size
  {
    var num, r := (len + size - 1) / size, (len + size - 1) % size;
    assert len + size - 1 == size * num + r;
    assert size * num == num * size;
  }

  /** Every page starts inside the list. */
  lemma PageStarts(n: nat, num: nat, size: nat, len: nat)
    requires n < num && num * size < len + size
    ensures n * size < len
  {
    assert num * size - n * size == (num - n) * size;
    assert (num - n) * size >= size by {
      assert (num - n) * size == size + (num - n - 1) * size;
    }
  }

  // ---- Batches, then pages -----------------------------------------------------------------

  lemma {:induction false} FlattenConcat(a: seq<seq<string>>, b: seq<seq<string>>)
    ensures Flatten(a + b) == Flatten(a) + Flatten(b)
    decreases |b|
  {
    if b == [] {
      assert a + b == a;
    } else {
      var n := |b| - 1;
      FlattenConcat(a, b[..n]);
      assert a + b == (a + b[..n]) + [b[n]];
      FlattenSnoc(a + b[..n], b[n]);
    }
  }

  /** No page is empty or longer than a page or a batch may be. */
  ghost predicate Sized(pages: seq<seq<string>>, pageSize: nat)
  {
    forall p <- pages :: 1 <= |p| <= pageSize && |p| <= BATCH_SIZE
  }

  lemma SizedPages(pages: seq<seq<string>>, codes: seq<string>, pageSize: nat)
    requires ArePages(pages, codes, pageSize) && |codes| <= BATCH_SIZE
    ensures Flatten(pages) == codes && Sized(pages, pageSize)
  {
    hide Flatten;
    PagesFit(pages, codes);
  }

  lemma SizedConcat(a: seq<seq<string>>, b: seq<seq<string>>, pageSize: nat)
    requires Sized(a, pageSize) && Sized(b, pageSize)
    ensures Sized(a + b, pageSize)
  {
  }

  /** All requests of one update: the pages of every batch, one batch after the other. */
  method UpdateQuotes(codes: seq<string>, pageSize: nat) returns (urls: seq<string>, pages: seq<seq<string>>)
    requires pageSize > 0
    ensures Flatten(pages) == codes
    ensures Sized(pages, pageSize) && AreUrls(urls, pages)
  {
    hide Flatten, ArePages, PageUrl, Sized;
    var batches := Batches(codes);
    urls, pages := [], [];
    NoneSized(pageSize);
    for i := 0 to |batches|
      invariant Flatten(pages) == Flatten(batches[..i])
      invariant Sized(pages, pageSize) && AreUrls(urls, pages)
    {
      var us, ps := GetQuotes(batches[i], pageSize);
      SizedPages(ps, batches[i], pageSize);
      SizedConcat(pages, ps, pageSize);
      FlattenConcat(pages, ps);
      UrlsConcat(urls, pages, us, ps);
      assert batches[..i + 1] == batches[..i] + [batches[i]];
      FlattenSnoc(batches[..i], batches[i]);
      urls, pages := urls + us, pages + ps;
    }
    assert batches[..|batches|] == batches;
  }

  lemma NoneSized(pageSize: nat)
    ensures Sized([], pageSize)
  {
  }

  lemma {:induction false} PagesFit(pages: seq<seq<string>>, codes: seq<string>)
    requires Flatten(pages) == codes
    ensures forall p <- pages :: |p| <= |codes|
    decreases |pages|
  {
    if pages != [] {
      var n := |pages| - 1;
      PagesFit(pages[..n], Flatten(pages[..n]));
      assert forall p <- pages :: p in pages[..n] || p == pages[n];
    }
  }

  // ---- What a page looks like --------------------------------------------------------------

  predicate CommaFree(s: string)
  {
    s != "" && ',' !in s
  }

  lemma InnerCodeCommaFree(code: string)
    requires CommaFree(code)
    ensures CommaFree(InnerCode(code))
  {
  }

  lemma InnerCodesCommaFree(page: seq<string>)
    requires forall c <- page :: CommaFree(c)
    ensures forall w <- InnerCodes(page) :: CommaFree(w)
  {
    hide CommaFree, InnerCode;
    forall w | w in InnerCodes(page) ensures CommaFree(w) {
      var i :| 0 <= i < |page| && InnerCodes(page)[i] == w;
      InnerCodeCommaFree(page[i]);
    }
  }

  lemma CommaFreeIs(w: string)
    requires CommaFree(w)
    ensures w != "" && w[|w| - 1] != ',' && FreeOf(w, ",")
  {
  }

  lemma JoinEnds(words: seq<string>)
    requires words != [] && words[|words| - 1] != ""
    ensures var joined, last := Join(words, ','), words[|words| - 1];
            joined != "" && joined[|joined| - 1] == last[|last| - 1]
  {
  }

  /** The list in a page's URL splits back into the page, and does not end in a comma. */
  lemma PageSplitsBack(page: seq<string>, tokens: seq<string>)
    requires page != [] && forall c <- page :: CommaFree(c)
    requires IsSplit(tokens, PageUrl(page)[6..], ",")
    ensures PageUrl(page)[..6] == "/list=" && tokens == InnerCodes(page)
    ensures PageUrl(page)[|PageUrl(page)| - 1] != ','
  {
    hide IsSplit, CommaFree, FreeOf, Join, InnerCode, InnerCodes;
    var words := InnerCodes(page);
    assert PageUrl(page)[6..] == Join(words, ',');
    InnerCodesCommaFree(page);
    forall w | w in words ensures FreeOf(w, ",") {
      CommaFreeIs(w);
    }
    SplitUndoesJoin(words, ',', tokens);
    assert words[|words| - 1] in words;
    CommaFreeIs(words[|words| - 1]);
    JoinEnds(words);
  }

  // ---- Codes there and back ----------------------------------------------------------------

  predicate StartsWith(s: string, prefix: string)
  {
    |prefix| <= |s| && s[..|prefix|] == prefix
  }

  /** convert_to_extend_code: the exchange goes back behind a dot. */
  function ExtendCode(code: string): (r: string)
  {
    if StartsWith(code, "sh") then FirstSix(code[2..]) + ".SH"
    else if StartsWith(code, "sz") then FirstSix(code[2..]) + ".SZ"
    else code
  }

  /** And back: the six characters behind the letters, and the exchange; what follows is cut off. */
  lemma ExtendCodeIs(number: string)
    requires |number| >= 6
    ensures ExtendCode("sh" + number) == number[..6] + ".SH"
    ensures ExtendCode("sz" + number) == number[..6] + ".SZ"
  {
    assert ("sh" + number)[..2] == "sh" && ("sh" + number)[2..] == number;
    assert ("sz" + number)[..2] == "sz" && ("sz" + number)[2..] == number;
  }

  /** The external form survives the round trip exactly for a six-character code of one of the
      two exchanges, and for a code that carries no exchange at all. */
  lemma CodeRoundTrip(code: string)
    ensures ExtendCode(InnerCode(code)) == code <==>
      if EndsWith(code, ".SH") || EndsWith(code, ".SZ") then |code| == 9
      else !StartsWith(code, "sh") && !StartsWith(code, "sz")
  {
    if EndsWith(code, ".SH") {
      assert InnerCode(code)[2..] == FirstSix(code);
    } else if EndsWith(code, ".SZ") {
      assert InnerCode(code)[2..] == FirstSix(code);
    } else {
      var r := ExtendCode(code);
      if StartsWith(code, "sh") {
        assert r[|r| - 3..] == ".SH";
      } else if StartsWith(code, "sz") {
        assert r[|r| - 3..] == ".SZ";
      }
    }
  }
}
