# temirci.az scraper, modelled in Dafny

This project models the crawler in `scraper.py`, the `TemirciScraper` class. The crawler:

- reads the categories from the home page of temirci.az;
- reads each category's page count from its pagination links;
- builds the page URLs and collects the listing links of every page;
- fetches each listing page and fills a record from it;
- appends every category's records to `all_listings`.

Every request goes through `fetch`, a retry loop with a 0.5 s delay before each attempt and an exponential backoff after exceptions.

The environment is a `Site` value (module `Crawl`):

- the server is a function from a URL and an attempt number to an outcome: status 200 with a body, another status, or an exception;
- the HTML parser is a set of functions from a page body to what the scraper looks up in it;
- `urljoin` and the clock are functions.

Modules:

- `Strings`: `str.strip`, `isdigit`, `int`, `str(n)` and `str.replace(p, "")` over ASCII.
- `Patterns`: leftmost `re.search` for regexes of the shape `prefix(class+)suffix`, with the match position and group 1.
- `FetchModel`: the retry loop as a function producing a trace (body, number of requests, delays in milliseconds).
- `Fields`: the phone extractors, the ad-id regex, the title, phone and price fallbacks, and the record.
- `Merge`: `extend` over lists of lists, and dropping `None` results.
- `Crawl`: what each crawl step computes, as functions of the `Site`.
- `Scraper`: the `TemirciScraper` class. Its methods keep the source's loops. Each is proved to compute the matching functions of `Crawl` and `FetchModel`, and `ScrapeAll` also states the new value of `allListings`.

Some consequences of the code that are easy to miss:

- The page count can be 0, for a single pagination link reading "0" (`Crawl.ZeroPageCount`). The category then has no pages at all, even though `get_total_pages` otherwise falls back to 1.
- Records are not de-duplicated. A listing URL that appears on two pages, or in two categories, gives two records (`Crawl.ListingRecordsNoLoss` counts one record per URL that could be fetched).
- A status other than 200 moves straight to the next attempt with no backoff (`FetchModel.FetchNoBackoffWithoutFailure`). Only exceptions back off.

## Model

| member | source | states |
|---|---|---|
| Scraper.TemirciScraper.constructor | scraper.py:20-24 | The scraper keeps the base URL and concurrency bound it is given and starts with no listings. |
| Scraper.TemirciScraper.WithDefaults | scraper.py:20-24 | With the default arguments the base URL is "https://www.temirci.az", the bound is 10, and there are no listings yet. |
| FetchModel.FetchReturnsFirstOk | scraper.py:29-43 | If attempt k is the first with status 200, the result is that body after exactly k + 1 requests. If no attempt gets 200, the result is no content after exactly max(retries, 0) requests. |
| FetchModel.FetchBound | scraper.py:29 | At most max(retries, 0) requests are issued. With retries <= 0 nothing is requested and the result is no content. |
| FetchModel.FetchDelays | scraper.py:31-42 | There are as many 0.5 s delays as requests. The total delay is 0.5 s per request plus 2^a s for each attempt a that raised, except an exception on the last allowed attempt. |
| FetchModel.FetchDelayLog | scraper.py:29-42 | The delays in order, attempt by attempt: 0.5 s before each request, followed directly by 2^a s when attempt a raised and was not the last allowed one. |
| FetchModel.FetchFailThenOk | scraper.py:29-42 | With three attempts, an exception and then status 200 give the body after two requests and the delays 0.5 s, 1 s, 0.5 s. |
| FetchModel.FetchNoBackoffWithoutFailure | scraper.py:33-36 | Without exceptions every delay is the 0.5 s one: a non-200 status adds no backoff. |
| FetchModel.FetchAlwaysFailing | scraper.py:37-42 | Against a server that always raises, exactly `retries` attempts are made and the result is no content. The delays total 0.5 s * retries + (2^(retries-1) - 1) s. |
| FetchModel.Backoff | scraper.py:40 | The backoff after an exception is at least one second. |
| Scraper.TemirciScraper.Fetch | scraper.py:26-43 | The loop returns the body, request count and delay sequence of the `FetchModel.Fetch` trace. |
| Strings.Strip | scraper.py:60 | The result is a slice of the input with no whitespace at either end, and everything cut off on both sides is whitespace. |
| Strings.StripIdempotent | scraper.py:60 | Stripping twice gives the same as stripping once. |
| Strings.Decimal | scraper.py:258 | `str(n)` is a non-empty string of digits, and it starts with '0' exactly when n is 0. |
| Strings.DecimalCanonical | scraper.py:258 | Any digit string of value n that is "0" or has no leading zero is `str(n)`: the spelling is the unique canonical one. |
| Strings.DecimalRoundTrip | scraper.py:108 | `int(str(n)) == n`. |
| Strings.DecimalInjective | scraper.py:258 | Different page numbers print differently. |
| Strings.RemoveAll | scraper.py:60 | Removing a pattern never makes a string longer. |
| Strings.RemoveAllFirst | scraper.py:60 | When the leftmost occurrence starts at i, the result is the text before i followed by the removal applied to the text after that occurrence. |
| Strings.RemoveAllTwice | scraper.py:252 | "a.htmlb.html" becomes "ab": every occurrence is removed, not only a leading or trailing one. |
| Strings.RemoveAllAbsent | scraper.py:60 | A string without the pattern is unchanged. |
| Strings.RemoveAllLeading | scraper.py:60 | A leading occurrence of the pattern is removed and the rest is processed as if on its own. |
| Strings.RemoveAllTrailing | scraper.py:252 | If ".html" occurs only as the trailing extension, removing it gives the stem. |
| Strings.RemoveAllSinglePass | scraper.py:252 | `replace` makes a single pass: ".ht.htmlml" becomes ".html", not "". |
| Patterns.RunLength | scraper.py:49 | The counted characters are all in the class and the run cannot be extended. |
| Patterns.FindFrom | scraper.py:49 | There is no match exactly when the pattern matches at no index from `from` on. Otherwise the result is the leftmost such index. |
| Patterns.GroupInClass | scraper.py:49-51 | The group of a match is non-empty and made of class characters. Prefix, group and suffix occur consecutively at the match, and the group ends where the run ends. |
| Patterns.GroupIsTheWholeRun | scraper.py:146 | When the suffix starts outside the class, as "." does for `\d`, the only group a backtracking matcher can accept is the whole run. |
| Fields.ExtractPhoneFromWhatsapp | scraper.py:45-54 | None exactly when "phone=" is never followed by '+' or a digit. Otherwise the result is the non-empty run of '+' and digits after the leftmost such "phone=", complete up to the first other character. |
| Fields.ExtractPhoneFromTel | scraper.py:56-64 | The phone has no surrounding whitespace and is no longer than the link. |
| Fields.TelOfNumber | scraper.py:60 | For "tel:" + number, where the number does not itself contain "tel:", the phone is the stripped number. |
| Fields.TelOfLink | scraper.py:56-64 | For "tel:" + number where "tel:" occurs again in the number, first at i: the phone is the number up to i, then the removal resumed after that copy, all stripped. With `TelOfNumber` this covers every href that starts with "tel:". |
| Fields.TelRepeatedScheme | scraper.py:60 | "tel:(070) tel:704" gives "(070) 704". |
| Fields.ExtractAdId | scraper.py:146-147 | None exactly when the URL contains no "/ads/<digits>.html". Otherwise the result is the digits of the leftmost such occurrence. |
| Fields.SelectTitle | scraper.py:150-157 | A non-empty og:title wins. Otherwise the stripped h1 text is used if there is an h1. Otherwise og:title is kept as it was (None or ""). The title is None exactly when neither is present. |
| Fields.SelectPhone | scraper.py:159-169 | A WhatsApp phone wins. Otherwise the `tel:` phone is used if there is such a link. The phone is None exactly when neither gives one, and a phone has no surrounding whitespace. |
| Fields.SelectPrice | scraper.py:185-192 | There is a price exactly when the block and both spans are present. It is then the stripped amount, one space and the stripped currency. |
| Crawl.CategoriesOf | scraper.py:66-71 | A home page that cannot be fetched or is empty gives no categories. |
| Scraper.TemirciScraper.GetCategories | scraper.py:66-89 | The loop returns one category per `a.services` link, in link order: stripped text as the name, joined href as the URL. |
| Crawl.PageNumbersMembers | scraper.py:101-110 | The collected numbers are exactly the values of the link texts that are all digits once stripped. |
| Crawl.MaxOf | scraper.py:112 | `max` returns an element of the list that no element exceeds. |
| Crawl.PagesFromTextsRule | scraper.py:100-112 | The count is 1 when no link text is all digits. Otherwise it is the value of one such text, and no such text has a larger value. |
| Crawl.TotalPagesRule | scraper.py:91-114 | The count is 1 without a body and 1 without pagination. With pagination it follows `PagesFromTextsRule`. |
| Crawl.ZeroPageCount | scraper.py:112 | A single "0" link gives a count of 0, and then `page_urls` is empty. |
| Scraper.TemirciScraper.GetTotalPages | scraper.py:91-114 | The loop returns the page count of `Crawl.CategoryPageCount`. |
| Crawl.PageUrlsShape | scraper.py:252-258 | There are max(total, 0) page URLs: page 1 is the category URL, and page n >= 2 is "<url without .html>/<n>.html". |
| Crawl.PageUrlsDistinct | scraper.py:258 | Two different pages n, m >= 2 get different URLs. |
| Crawl.PageUrlOfHtmlCategory | scraper.py:252-258 | For a category URL "<stem>.html" with no other ".html", page n >= 2 is "<stem>/<n>.html". |
| Scraper.TemirciScraper.BuildPageUrls | scraper.py:252-258 | The loop builds exactly `Crawl.PageUrls(categoryUrl, totalPages)`. |
| Crawl.PageListingUrls | scraper.py:116-120 | A page that cannot be fetched or is empty contributes no listing URLs. |
| Crawl.ListingUrlsCount | scraper.py:127-131 | There is one listing URL per non-empty gallery href. |
| Crawl.ListingUrlsMembership | scraper.py:127-131 | A URL is collected exactly when it is the join of some non-empty href. |
| Crawl.ListingUrlsAppend | scraper.py:126-131 | Document order is kept: the links of a later part of the page come after those of an earlier part. |
| Scraper.TemirciScraper.GetListingUrlsFromPage | scraper.py:116-134 | The loop returns `Crawl.PageListingUrls` for the page. |
| Scraper.TemirciScraper.GatherListingUrls | scraper.py:262-263 | One result list per page URL, in page order, each equal to `Crawl.PageListingUrls`. |
| Merge.FlattenAppend | scraper.py:265-266 | Extending with the parts of two stretches equals extending with each in turn. |
| Merge.FlattenLength | scraper.py:265-266 | The merged list is as long as all parts together. |
| Merge.FlattenAt | scraper.py:265-266 | Element j of part p lands right after all elements of the earlier parts and the first j of its own part. |
| Merge.FlattenMembership | scraper.py:287-289 | An element is in the merged list exactly when it is in one of the parts. |
| Scraper.TemirciScraper.ExtendAll | scraper.py:261-266 | The `extend` loop returns the concatenation of the per-page lists in page order. |
| Crawl.DetailOf | scraper.py:136-140 | A listing gives no record exactly when its page cannot be fetched or is empty. A record carries the category name, the listing URL and the ad id taken from that URL. |
| Scraper.TemirciScraper.ScrapeListingDetail | scraper.py:136-234 | The method returns `Crawl.DetailOf`, the record built from the parsed page with the field rules of `Fields`. |
| Scraper.TemirciScraper.GatherDetails | scraper.py:271-272 | One detail result per listing URL, in URL order, each equal to `Crawl.DetailOf`. |
| Merge.PresentLength | scraper.py:275 | If k of n results are None, n - k remain. |
| Merge.PresentAppend | scraper.py:275 | Dropping None results keeps the order of what remains. |
| Merge.PresentMembership | scraper.py:275 | A value survives exactly when some result carried it. |
| Crawl.DetailsBelong | scraper.py:271-272 | Result k, when present, belongs to URL k and the category. |
| Crawl.PresentBelong | scraper.py:275 | Every kept record belongs to the category and to one of the URLs. |
| Crawl.ListingRecordsNoLoss | scraper.py:271-277 | Of n listing URLs with k failures, n - k records remain. Each carries the category name and one of the URLs, and every successful URL contributes its record. |
| Scraper.TemirciScraper.ScrapeCategory | scraper.py:240-277 | The method returns `Crawl.CategoryRecords`: the records of every page's listings, in page and document order, without the failures. |
| Scraper.TemirciScraper.ScrapeCategories | scraper.py:286-290 | `all_listings` becomes its old value followed by each category's records, in category order. |
| Scraper.TemirciScraper.ScrapeAll | scraper.py:279-292 | `all_listings` becomes its old value followed by the records of every home-page category, and that list is returned. |
| Crawl.AllRecordsBelong | scraper.py:283-289 | Every collected record carries the name of one of the categories and a listing URL gathered from that category's pages. |

## Left out

- RemoveAll: its own contract gives only the length bound. The value follows from `Strings.RemoveAllFirst` (an occurrence) and `Strings.RemoveAllAbsent` (none), which together fix the result for every input.
- ExtractPhoneFromTel: its own contract gives only the shape (stripped, not longer than the link). The value is stated by `Fields.TelOfNumber` and `Fields.TelOfLink` for every href that starts with "tel:", which is every href the `^tel:` search returns.
- Concurrency: the semaphore and `max_concurrent` are kept as data but not modelled, and each `asyncio.gather` is a sequential loop in list order. `gather` returns its results in that order, so the results are the same.
- The network: the server answers a URL the same way on every fetch of it (one `respond` function per URL). The 30 s timeout, connection errors and errors reading the body all become one exception outcome.
- Sleeping: the delays are returned as data in milliseconds instead of being waited for.
- BeautifulSoup: the parser is abstract (`Site.categoryLinks`, `paginationTexts`, `galleryHrefs`, `detailPage`). How it finds elements, and `get_text(strip=True, separator='\n')` for the description, are not modelled.
- `urljoin` is an abstract function of the base and the href. A category link without an href is not modelled (`CategoryLink.href` is always a string).
- `datetime.now().isoformat()` is the `Site.clock` value for the listing URL.
- Logging is not modelled.
- The `try`/`except` blocks of `scrape_listing_detail`, `get_total_pages` and the two phone helpers are not modelled. With the parser abstract and text limited to ASCII, no step inside them can raise. In particular, `int(text)` cannot fail once `isdigit` holds, as it can for non-ASCII digits.
- Unicode: whitespace, digits and `strip` are ASCII-only.
- `save_to_json`, `save_to_csv` and the `main` entry point (file output), and `generate_charts.py`, are not modelled.
