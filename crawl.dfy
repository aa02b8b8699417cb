/**
 * What the crawl computes, as functions of an abstract site: the
 * categories, each category's page count and page URLs, the listing URLs
 * gathered from those pages and the records scraped from them. The methods of
 * `Scraper.TemirciScraper` are proved to compute exactly these.
 */
module Crawl {
  import opened Wrappers
  import opened Strings
  import opened FetchModel
  import opened Merge
  import opened Fields

  /** An `a.services` link of the home page's `div.service_category`. */
  datatype CategoryLink = CategoryLink(text: string, href: string)

  datatype Category = Category(name: string, url: string)

  /**
   * The environment of a run: how the server answers each request for a URL,
   * what the HTML parser finds in a page body, `urljoin`, and the clock read
   * when a listing's record is built.
   */
  datatype Site = Site(
    respond: string -> nat -> Outcome,                 // outcome of attempt k when fetching a URL
    categoryLinks: string -> Option<seq<CategoryLink>>, // None when there is no div.service_category
    paginationTexts: string -> Option<seq<string>>,     // texts of the links in ul.pagination; None when there is none
    galleryHrefs: string -> seq<Option<string>>,        // href attribute of each a.gallery, in document order
    detailPage: string -> DetailPage,                   // the fields found on a listing detail page
    join: (string, string) -> string,                   // urljoin(base, href)
    clock: string -> string                             // timestamp taken when the listing at a URL is scraped
  )

  /** The body `fetch(url)` returns, with the default retry budget. */
  function Html(site: Site, url: string): Option<string>
  {
    Fetch(site.respond(url), DefaultRetries).body
  }

  // ---------------------------------------------------------------- categories

  /** The categories built from the home page's links, in link order: stripped text as name, joined href as URL. */
  function CategoriesFrom(join: (string, string) -> string, base: string, links: seq<CategoryLink>): seq<Category>
  {
    seq(|links|, k requires 0 <= k < |links| => Category(Strip(links[k].text), join(base, links[k].href)))
  }

  /** `get_categories`: none when the home page cannot be fetched or has no category container. */
  function CategoriesOf(site: Site, base: string): (r: seq<Category>)
    ensures !Truthy(Html(site, base)) ==> r == []
  {
    var html := Html(site, base);
    if !Truthy(html) then []
    else match site.categoryLinks(html.value)
      case None => []
      case Some(links) => CategoriesFrom(site.join, base, links)
  }

  // -------------------------------------------------------------- page count

  /** The pagination link texts that are all digits once stripped. */
  predicate IsPageNumberText(text: string)
  {
    IsDigitText(Strip(text))
  }

  function PageNumberOf(text: string): nat
    requires IsPageNumberText(text)
  {
    DigitsValue(Strip(text))
  }

  /** `page_numbers`: the value of every all-digit link text, in link order. */
  function PageNumbers(texts: seq<string>): seq<nat>
  {
    if texts == [] then []
    else
      var last := texts[|texts| - 1];
      PageNumbers(texts[..|texts| - 1]) + (if IsPageNumberText(last) then [PageNumberOf(last)] else [])
  }

  /** The page numbers are exactly the values of the all-digit link texts. */
  lemma {:induction false} PageNumbersMembers(texts: seq<string>)
    ensures forall k :: 0 <= k < |texts| && IsPageNumberText(texts[k]) ==> PageNumberOf(texts[k]) in PageNumbers(texts)
    ensures forall x :: x in PageNumbers(texts) ==>
              exists k :: 0 <= k < |texts| && IsPageNumberText(texts[k]) && x == PageNumberOf(texts[k])
  {
    if texts != [] {
      var init := texts[..|texts| - 1];
      PageNumbersMembers(init);
      assert forall k :: 0 <= k < |init| ==> init[k] == texts[k];
    }
  }

  /** Python's `max` of a non-empty list. */
  function MaxOf(xs: seq<nat>): (m: nat)
    requires |xs| > 0
    ensures m in xs
    ensures forall x :: x in xs ==> x <= m
  {
    if |xs| == 1 then xs[0]
    else
      var init := xs[..|xs| - 1];
      var m := MaxOf(init);
      assert xs == init + [xs[|xs| - 1]];
      if xs[|xs| - 1] > m then xs[|xs| - 1] else m
  }

  /** The page count read from the pagination link texts. */
  function PagesFromTexts(texts: seq<string>): int
  {
    var numbers := PageNumbers(texts);
    if numbers == [] then 1 else MaxOf(numbers)
  }

  /** `get_total_pages`, given the page body and what the parser finds in `ul.pagination`. */
  function TotalPagesOf(html: Option<string>, pagination: string -> Option<seq<string>>): int
  {
    if !Truthy(html) then 1
    else match pagination(html.value)
      case None => 1
      case Some(texts) => PagesFromTexts(texts)
  }

  /**
   * From the link texts: 1 when none of them is all digits, otherwise the
   * largest of their values, which may be 0.
   */
  lemma PagesFromTextsRule(texts: seq<string>)
    ensures (forall k :: 0 <= k < |texts| ==> !IsPageNumberText(texts[k])) ==> PagesFromTexts(texts) == 1
    ensures (exists k :: 0 <= k < |texts| && IsPageNumberText(texts[k])) ==>
              (exists k :: 0 <= k < |texts| && IsPageNumberText(texts[k]) && PagesFromTexts(texts) == PageNumberOf(texts[k]))
              && forall k :: 0 <= k < |texts| && IsPageNumberText(texts[k]) ==> PageNumberOf(texts[k]) <= PagesFromTexts(texts)
  {
    var numbers := PageNumbers(texts);
    PageNumbersMembers(texts);
    if numbers != [] {
      assert numbers[0] in numbers;
    }
  }

  /**
   * The page count is 1 without a body, without pagination and without any
   * all-digit link text; otherwise it is the largest of those numbers, which
   * may be 0.
   */
  lemma TotalPagesRule(html: Option<string>, pagination: string -> Option<seq<string>>)
    ensures !Truthy(html) ==> TotalPagesOf(html, pagination) == 1
    ensures Truthy(html) && pagination(html.value).None? ==> TotalPagesOf(html, pagination) == 1
    ensures Truthy(html) && pagination(html.value).Some? ==>
      var texts, n := pagination(html.value).value, TotalPagesOf(html, pagination);
      && ((forall k :: 0 <= k < |texts| ==> !IsPageNumberText(texts[k])) ==> n == 1)
      && ((exists k :: 0 <= k < |texts| && IsPageNumberText(texts[k])) ==>
            (exists k :: 0 <= k < |texts| && IsPageNumberText(texts[k]) && n == PageNumberOf(texts[k]))
            && forall k :: 0 <= k < |texts| && IsPageNumberText(texts[k]) ==> PageNumberOf(texts[k]) <= n)
  {
    if Truthy(html) && pagination(html.value).Some? {
      PagesFromTextsRule(pagination(html.value).value);
    }
  }

  /** A lone "0" link gives a page count of 0, and so no page at all. */
  lemma ZeroPageCount()
    ensures PagesFromTexts(["0"]) == 0
    ensures PageUrls("/c.html", PagesFromTexts(["0"])) == []
  {
    assert LeadingSpace("0") == 0 && TrailingSpace("0") == 0;
    assert Strip("0") == "0";
    assert DigitsValue("0") == 0 by {
      assert "0"[..0] == [];
    }
    assert PageNumbers(["0"]) == [0] by {
      assert ["0"][..0] == [];
    }
  }

  // --------------------------------------------------------------- page URLs

  const HtmlExtension: string := ".html"

  /** The URL of page `n` of a category: the category URL for page 1, "<url without .html>/<n>.html" after that. */
  function PageUrl(categoryUrl: string, n: nat): string
    requires n >= 1
  {
    if n == 1 then categoryUrl
    else RemoveAll(categoryUrl, HtmlExtension) + "/" + Decimal(n) + HtmlExtension
  }

  /** `page_urls` for pages `1 .. total`. */
  function PageUrls(categoryUrl: string, total: int): seq<string>
  {
    seq(Max0(total), i requires 0 <= i => PageUrl(categoryUrl, i + 1))
  }

  /** The list has `max(total, 0)` entries: the category URL first, then the template for pages 2 on. */
  lemma PageUrlsShape(categoryUrl: string, total: int)
    ensures |PageUrls(categoryUrl, total)| == Max0(total)
    ensures total >= 1 ==> PageUrls(categoryUrl, total)[0] == categoryUrl
    ensures forall n :: 2 <= n <= total ==>
      PageUrls(categoryUrl, total)[n - 1] == RemoveAll(categoryUrl, HtmlExtension) + "/" + Decimal(n) + HtmlExtension
  {
  }

  /** The templated URLs of two different pages differ, and the page number can be read back from the URL. */
  lemma PageUrlsDistinct(categoryUrl: string, m: nat, n: nat)
    requires 2 <= m && 2 <= n && m != n
    ensures PageUrl(categoryUrl, m) != PageUrl(categoryUrl, n)
  {
    var base := RemoveAll(categoryUrl, HtmlExtension) + "/";
    var dm, dn := Decimal(m), Decimal(n);
    if PageUrl(categoryUrl, m) == PageUrl(categoryUrl, n) {
      assert base + dm + HtmlExtension == base + dn + HtmlExtension;
      assert |dm| == |dn|;
      assert dm == (base + dm + HtmlExtension)[|base|..|base| + |dm|];
      assert dn == (base + dn + HtmlExtension)[|base|..|base| + |dn|];
      DecimalInjective(m, n);
    }
  }

  /**
   * For a category URL "<stem>.html" in which ".html" occurs only as the
   * extension, page n >= 2 is "<stem>/<n>.html".
   */
  lemma PageUrlOfHtmlCategory(stem: string, n: nat)
    requires n >= 2
    requires forall i :: 0 <= i < |stem| ==> !OccursAt(stem + HtmlExtension, HtmlExtension, i)
    ensures PageUrl(stem + HtmlExtension, n) == stem + "/" + Decimal(n) + HtmlExtension
  {
    RemoveAllTrailing(stem, HtmlExtension);
  }

  // ----------------------------------------------------------- listing URLs

  /** `listing_urls` of one page: `urljoin(base, href)` for every non-empty href, in document order. */
  function ListingUrlsOf(join: (string, string) -> string, base: string, hrefs: seq<Option<string>>): seq<string>
  {
    if hrefs == [] then []
    else
      var last := hrefs[|hrefs| - 1];
      ListingUrlsOf(join, base, hrefs[..|hrefs| - 1]) + (if Truthy(last) then [join(base, last.value)] else [])
  }

  function CountNonEmpty(hrefs: seq<Option<string>>): nat
  {
    if hrefs == [] then 0
    else CountNonEmpty(hrefs[..|hrefs| - 1]) + (if Truthy(hrefs[|hrefs| - 1]) then 1 else 0)
  }

  /** One listing URL per non-empty href. */
  lemma {:induction false} ListingUrlsCount(join: (string, string) -> string, base: string, hrefs: seq<Option<string>>)
    ensures |ListingUrlsOf(join, base, hrefs)| == CountNonEmpty(hrefs)
  {
    if hrefs != [] {
      ListingUrlsCount(join, base, hrefs[..|hrefs| - 1]);
    }
  }

  /** A URL is collected exactly when it is the join of some non-empty href. */
  lemma {:induction false} ListingUrlsMembership(join: (string, string) -> string, base: string, hrefs: seq<Option<string>>, u: string)
    ensures u in ListingUrlsOf(join, base, hrefs) <==>
      exists k :: 0 <= k < |hrefs| && Truthy(hrefs[k]) && u == join(base, hrefs[k].value)
  {
    if hrefs != [] {
      var init := hrefs[..|hrefs| - 1];
      ListingUrlsMembership(join, base, init, u);
      assert forall k :: 0 <= k < |init| ==> init[k] == hrefs[k];
    }
  }

  /** Document order is kept: the links of a later stretch of the page come after those of an earlier one. */
  lemma {:induction false} ListingUrlsAppend(join: (string, string) -> string, base: string, a: seq<Option<string>>, b: seq<Option<string>>)
    ensures ListingUrlsOf(join, base, a + b) == ListingUrlsOf(join, base, a) + ListingUrlsOf(join, base, b)
    decreases |b|
  {
    if b == [] {
      assert a + b == a;
    } else {
      var b' := b[..|b| - 1];
      assert (a + b)[..|a + b| - 1] == a + b';
      ListingUrlsAppend(join, base, a, b');
    }
  }

  /** `get_listing_urls_from_page`: a page that cannot be fetched contributes nothing. */
  function PageListingUrls(site: Site, base: string, pageUrl: string): (r: seq<string>)
    ensures !Truthy(Html(site, pageUrl)) ==> r == []
  {
    var html := Html(site, pageUrl);
    if !Truthy(html) then [] else ListingUrlsOf(site.join, base, site.galleryHrefs(html.value))
  }

  /** The gathered per-page lists, one per page URL, in page order. */
  function ListingsPerPage(site: Site, base: string, pageUrls: seq<string>): seq<seq<string>>
  {
    seq(|pageUrls|, p requires 0 <= p < |pageUrls| => PageListingUrls(site, base, pageUrls[p]))
  }

  /** The page count `scrape_category` works with. */
  function CategoryPageCount(site: Site, categoryUrl: string): int
  {
    TotalPagesOf(Html(site, categoryUrl), site.paginationTexts)
  }

  /** `all_listing_urls`: the per-page lists concatenated in page order. */
  function CategoryListingUrls(site: Site, base: string, categoryUrl: string): seq<string>
  {
    Flatten(ListingsPerPage(site, base, PageUrls(categoryUrl, CategoryPageCount(site, categoryUrl))))
  }

  // ---------------------------------------------------------------- records

  /** `scrape_listing_detail`: no record without a body; otherwise the record built from the parsed page. */
  function DetailOf(site: Site, listingUrl: string, categoryName: string): (r: Option<Listing>)
    ensures r.None? <==> !Truthy(Html(site, listingUrl))
    ensures r.Some? ==> r.value.category == categoryName && r.value.listingUrl == listingUrl
                        && r.value.adId == ExtractAdId(listingUrl)
  {
    var html := Html(site, listingUrl);
    if !Truthy(html) then None
    else Some(BuildListing(listingUrl, categoryName, site.detailPage(html.value), site.clock(listingUrl)))
  }

  /** The gathered detail results, one per listing URL, in listing-URL order. */
  function DetailsOf(site: Site, urls: seq<string>, categoryName: string): seq<Option<Listing>>
  {
    seq(|urls|, k requires 0 <= k < |urls| => DetailOf(site, urls[k], categoryName))
  }

  /** The records of `urls`, in URL order, with the failed ones dropped. */
  function ListingRecords(site: Site, urls: seq<string>, categoryName: string): seq<Listing>
  {
    Present(DetailsOf(site, urls, categoryName))
  }

  /** `scrape_category`: the records of the category's listing URLs. */
  function CategoryRecords(site: Site, base: string, category: Category): seq<Listing>
  {
    ListingRecords(site, CategoryListingUrls(site, base, category.url), category.name)
  }

  /** Detail results that each belong to the URL they were fetched for. */
  predicate ResultsBelong(details: seq<Option<Listing>>, urls: seq<string>, categoryName: string)
  {
    |details| == |urls|
    && forall k :: 0 <= k < |details| && details[k].Some? ==>
         details[k].value.category == categoryName && details[k].value.listingUrl == urls[k]
  }

  lemma DetailsBelong(site: Site, urls: seq<string>, categoryName: string)
    ensures ResultsBelong(DetailsOf(site, urls, categoryName), urls, categoryName)
  {
    var details := DetailsOf(site, urls, categoryName);
    forall k | 0 <= k < |details| && details[k].Some?
      ensures details[k].value.category == categoryName && details[k].value.listingUrl == urls[k]
    {
      var d := DetailOf(site, urls[k], categoryName);
      assert details[k] == d;
    }
  }

  lemma {:induction false} PresentBelong(details: seq<Option<Listing>>, urls: seq<string>, categoryName: string)
    requires ResultsBelong(details, urls, categoryName)
    ensures forall r :: r in Present(details) ==> r.category == categoryName && r.listingUrl in urls
  {
    forall r | r in Present(details) ensures r.category == categoryName && r.listingUrl in urls {
      PresentMembership(details, r);
      var k :| 0 <= k < |details| && details[k] == Some(r);
    }
  }

  /**
   * If k of the n listing URLs give no record, n - k records remain; each
   * carries the category's name and one of the URLs, and every URL that gives
   * a record contributes it.
   */
  lemma ListingRecordsNoLoss(site: Site, urls: seq<string>, categoryName: string)
    ensures |ListingRecords(site, urls, categoryName)| == |urls| - CountNone(DetailsOf(site, urls, categoryName))
    ensures forall r :: r in ListingRecords(site, urls, categoryName) ==> r.category == categoryName && r.listingUrl in urls
    ensures forall k :: 0 <= k < |urls| && DetailOf(site, urls[k], categoryName).Some? ==>
              DetailOf(site, urls[k], categoryName).value in ListingRecords(site, urls, categoryName)
  {
    var details := DetailsOf(site, urls, categoryName);
    PresentLength(details);
    DetailsBelong(site, urls, categoryName);
    PresentBelong(details, urls, categoryName);
    forall k | 0 <= k < |urls| && DetailOf(site, urls[k], categoryName).Some?
      ensures DetailOf(site, urls[k], categoryName).value in ListingRecords(site, urls, categoryName)
    {
      assert details[k] == DetailOf(site, urls[k], categoryName);
      PresentMembership(details, DetailOf(site, urls[k], categoryName).value);
    }
  }

  /** The per-category record lists, one per category, in category order. */
  function RecordsPerCategory(site: Site, base: string, categories: seq<Category>): seq<seq<Listing>>
  {
    seq(|categories|, c requires 0 <= c < |categories| => CategoryRecords(site, base, categories[c]))
  }

  /** What `scrape_all` appends to `all_listings`. */
  function AllRecords(site: Site, base: string, categories: seq<Category>): seq<Listing>
  {
    Flatten(RecordsPerCategory(site, base, categories))
  }

  /**
   * Every record `scrape_all` collects carries the name of one of the
   * categories and a listing URL gathered from that category's pages.
   */
  lemma AllRecordsBelong(site: Site, base: string, categories: seq<Category>)
    ensures forall r :: r in AllRecords(site, base, categories) ==>
              exists c :: 0 <= c < |categories| && r.category == categories[c].name
                          && r.listingUrl in CategoryListingUrls(site, base, categories[c].url)
  {
    var perCategory := RecordsPerCategory(site, base, categories);
    forall r | r in AllRecords(site, base, categories)
      ensures exists c :: 0 <= c < |categories| && r.category == categories[c].name
                          && r.listingUrl in CategoryListingUrls(site, base, categories[c].url)
    {
      FlattenMembership(perCategory, r);
      var c :| 0 <= c < |perCategory| && r in perCategory[c];
      ListingRecordsNoLoss(site, CategoryListingUrls(site, base, categories[c].url), categories[c].name);
    }
  }
}
