/**
 * The `TemirciScraper` object: its retry loop, the loops that read the page
 * count, build the page URLs, collect listing URLs and record lists, and the
 * accumulation into `all_listings`. Each method is proved to compute the
 * corresponding function of `Crawl` or `FetchModel`; the network, the HTML
 * parser, `urljoin` and the clock come in through a `Site`.
 */
module Scraper {
  import opened Wrappers
  import opened Strings
  import opened FetchModel
  import opened Merge
  import opened Fields
  import opened Crawl

  const DefaultBaseUrl: string := "https://www.temirci.az"
  const DefaultMaxConcurrent: int := 10

  class TemirciScraper {
    const baseUrl: string
    /** The size of the admission gate; concurrency is not modelled, so nothing reads it. */
    const maxConcurrent: int
    var allListings: seq<Listing>

    constructor (baseUrl: string, maxConcurrent: int)
      ensures this.baseUrl == baseUrl && this.maxConcurrent == maxConcurrent
      ensures allListings == []
    {
      this.baseUrl := baseUrl;
      this.maxConcurrent := maxConcurrent;
      allListings := [];
    }

    /** `TemirciScraper()` with the default arguments: the temirci.az home page and at most 10 requests at a time. */
    constructor WithDefaults()
      ensures baseUrl == DefaultBaseUrl && maxConcurrent == DefaultMaxConcurrent
      ensures allListings == []
    {
      baseUrl := DefaultBaseUrl;
      maxConcurrent := DefaultMaxConcurrent;
      allListings := [];
    }

    /**
     * `fetch`: up to `retries` attempts, each after a 0.5 s delay; the first
     * status 200 returns its body; an exception sleeps 2^attempt s before the
     * next attempt, or gives up on the last one.
     */
    static method Fetch(respond: nat -> Outcome, retries: int) returns (body: Option<string>, requests: nat, delays: seq<nat>)
      ensures FetchTrace(body, requests, delays) == FetchModel.Fetch(respond, retries)
    {
      body, requests, delays := None, 0, [];
      ghost var whole := FetchModel.Fetch(respond, retries);
      var attempt: nat := 0;
      while attempt < retries
        invariant requests == attempt
        invariant var rest := FetchFrom(respond, retries, attempt);
                  whole.body == rest.body && whole.requests == requests + rest.requests && whole.delays == delays + rest.delays
        decreases retries - attempt
      {
        ghost var before := delays;
        ghost var next := FetchFrom(respond, retries, attempt + 1);
        delays := delays + [AttemptDelay];
        requests := requests + 1;
        match respond(attempt) {
          case Ok(b) =>
            assert whole.delays == delays;
            body := Some(b);
            return;
          case BadStatus(_) =>
            assert before + ([AttemptDelay] + next.delays) == delays + next.delays;
          case Failure =>
            if attempt < retries - 1 {
              assert before + ([AttemptDelay, Backoff(attempt)] + next.delays) == delays + [Backoff(attempt)] + next.delays;
              delays := delays + [Backoff(attempt)];
            } else {
              assert whole.delays == delays;
              return;
            }
        }
        attempt := attempt + 1;
      }
    }

    /** `get_categories`: one category per `a.services` link of the home page. */
    method GetCategories(site: Site) returns (categories: seq<Category>)
      ensures categories == CategoriesOf(site, baseUrl)
    {
      var html, _, _ := Fetch(site.respond(baseUrl), DefaultRetries);
      categories := [];
      if !Truthy(html) {
        return;
      }
      var container := site.categoryLinks(html.value);
      if container.Some? {
        var links := container.value;
        ghost var all := CategoriesFrom(site.join, baseUrl, links);
        for i := 0 to |links|
          invariant categories == all[..i]
        {
          var categoryUrl := site.join(baseUrl, links[i].href);
          var categoryName := Strip(links[i].text);
          GatherStep(categories, all, i, Category(categoryName, categoryUrl));
          categories := categories + [Category(categoryName, categoryUrl)];
        }
        assert all[..|links|] == all;
      }
    }

    /** `get_total_pages`: the largest all-digit pagination link text, 1 by default. */
    method GetTotalPages(site: Site, categoryUrl: string) returns (total: int)
      ensures total == CategoryPageCount(site, categoryUrl)
    {
      var html, _, _ := Fetch(site.respond(categoryUrl), DefaultRetries);
      if !Truthy(html) {
        return 1;
      }
      var pagination := site.paginationTexts(html.value);
      if pagination.Some? {
        var texts := pagination.value;
        var pageNumbers: seq<nat> := [];
        for i := 0 to |texts|
          invariant pageNumbers == PageNumbers(texts[..i])
        {
          var text := Strip(texts[i]);
          if IsDigitText(text) {
            pageNumbers := pageNumbers + [DigitsValue(text)];
          }
          assert texts[..i + 1][..i] == texts[..i];
        }
        assert texts[..|texts|] == texts;
        return if pageNumbers != [] then MaxOf(pageNumbers) else 1;
      }
      return 1;
    }

    /** `get_listing_urls_from_page`: the joined non-empty gallery hrefs, in document order. */
    method GetListingUrlsFromPage(site: Site, pageUrl: string) returns (listingUrls: seq<string>)
      ensures listingUrls == PageListingUrls(site, baseUrl, pageUrl)
    {
      var html, _, _ := Fetch(site.respond(pageUrl), DefaultRetries);
      if !Truthy(html) {
        return [];
      }
      var galleries := site.galleryHrefs(html.value);
      listingUrls := [];
      for i := 0 to |galleries|
        invariant listingUrls == ListingUrlsOf(site.join, baseUrl, galleries[..i])
      {
        var listingUrl := galleries[i];
        if Truthy(listingUrl) {
          listingUrls := listingUrls + [site.join(baseUrl, listingUrl.value)];
        }
        assert galleries[..i + 1][..i] == galleries[..i];
      }
      assert galleries[..|galleries|] == galleries;
    }

    /**
     * `scrape_listing_detail`: a record for a listing page whose fetch succeeded.
     * It takes the same steps as `Crawl.DetailOf`, but fetches through the
     * `Fetch` loop; its postcondition is that the two agree.
     */
    method ScrapeListingDetail(site: Site, listingUrl: string, categoryName: string) returns (data: Option<Listing>)
      ensures data == DetailOf(site, listingUrl, categoryName)
    {
      var html, _, _ := Fetch(site.respond(listingUrl), DefaultRetries);
      if !Truthy(html) {
        return None;
      }
      var page := site.detailPage(html.value);
      return Some(BuildListing(listingUrl, categoryName, page, site.clock(listingUrl)));
    }

    /** The `page_urls` loop of `scrape_category`: `range(1, total_pages + 1)`. */
    method BuildPageUrls(categoryUrl: string, totalPages: int) returns (pageUrls: seq<string>)
      ensures pageUrls == PageUrls(categoryUrl, totalPages)
    {
      var baseCategoryUrl := RemoveAll(categoryUrl, HtmlExtension);
      pageUrls := [];
      var pageNum := 1;
      while pageNum <= totalPages
        invariant 1 <= pageNum <= Max0(totalPages) + 1
        invariant |pageUrls| == pageNum - 1
        invariant forall k :: 0 <= k < |pageUrls| ==> pageUrls[k] == PageUrl(categoryUrl, k + 1)
      {
        if pageNum == 1 {
          pageUrls := pageUrls + [categoryUrl];
        } else {
          pageUrls := pageUrls + [baseCategoryUrl + "/" + Decimal(pageNum) + HtmlExtension];
        }
        pageNum := pageNum + 1;
      }
    }

    /** The first `gather` of `scrape_category`, one listing-URL list per page, run one page after another. */
    method GatherListingUrls(site: Site, pageUrls: seq<string>) returns (results: seq<seq<string>>)
      ensures results == ListingsPerPage(site, baseUrl, pageUrls)
    {
      results := [];
      ghost var all := ListingsPerPage(site, baseUrl, pageUrls);
      for p := 0 to |pageUrls|
        invariant results == all[..p]
      {
        var urls := GetListingUrlsFromPage(site, pageUrls[p]);
        GatherStep(results, all, p, urls);
        results := results + [urls];
      }
      assert all[..|pageUrls|] == all;
    }

    /** The `extend` loop of `scrape_category`. */
    static method ExtendAll(results: seq<seq<string>>) returns (allListingUrls: seq<string>)
      ensures allListingUrls == Flatten(results)
    {
      allListingUrls := [];
      for p := 0 to |results|
        invariant allListingUrls == Flatten(results[..p])
      {
        allListingUrls := allListingUrls + results[p];
        assert results[..p + 1][..p] == results[..p];
      }
      assert results[..|results|] == results;
    }

    /** The second `gather` of `scrape_category`, one detail result per listing URL, run one URL after another. */
    method GatherDetails(site: Site, urls: seq<string>, categoryName: string) returns (details: seq<Option<Listing>>)
      ensures details == DetailsOf(site, urls, categoryName)
    {
      details := [];
      ghost var all := DetailsOf(site, urls, categoryName);
      for k := 0 to |urls|
        invariant details == all[..k]
      {
        var data := ScrapeListingDetail(site, urls[k], categoryName);
        GatherStep(details, all, k, data);
        details := details + [data];
      }
      assert all[..|urls|] == all;
    }

    /** `scrape_category`: page URLs, then listing URLs page by page, then the records that could be scraped. */
    method ScrapeCategory(site: Site, category: Category) returns (listingData: seq<Listing>)
      ensures listingData == CategoryRecords(site, baseUrl, category)
    {
      var totalPages := GetTotalPages(site, category.url);
      var pageUrls := BuildPageUrls(category.url, totalPages);
      var results := GatherListingUrls(site, pageUrls);
      var allListingUrls := ExtendAll(results);
      var details := GatherDetails(site, allListingUrls, category.name);
      listingData := Present(details);
    }

    /** The loop of `scrape_all`: each category's records appended to `all_listings`, in category order. */
    method ScrapeCategories(site: Site, categories: seq<Category>)
      modifies this
      ensures allListings == old(allListings) + AllRecords(site, baseUrl, categories)
    {
      ghost var perCategory := RecordsPerCategory(site, baseUrl, categories);
      for c := 0 to |categories|
        invariant allListings == old(allListings) + Flatten(perCategory[..c])
      {
        var categoryListings := ScrapeCategory(site, categories[c]);
        ExtendStep(old(allListings), allListings, perCategory, c);
        allListings := allListings + categoryListings;
      }
      assert perCategory[..|categories|] == perCategory;
    }

    /** `scrape_all`: the records of every category of the home page, appended to `all_listings` and returned. */
    method ScrapeAll(site: Site) returns (result: seq<Listing>)
      modifies this
      ensures allListings == old(allListings) + AllRecords(site, baseUrl, CategoriesOf(site, baseUrl))
      ensures result == allListings
    {
      var categories := GetCategories(site);
      ScrapeCategories(site, categories);
      result := allListings;
    }
  }
}
