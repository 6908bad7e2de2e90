# netcafe-go: the store extractors and the store search, in Dafny

netcafe-go is a command-line program that lists internet cafes in Tokyo. It
scrapes the shop listings of three chains and merges them into one list. The
chains are 快活CLUB (Kaikatsu CLUB), 自遊空間 (Jiqoo) and マンボー (Manboo).

- Without `-scrape`, the program uses five built-in sample stores.
- With `-scrape`, it uses what `ScrapeAll` returns, even an empty list.
- The sample fallback for a scraping error (main.go:151-154) never runs,
  because `ScrapeAll` never returns an error (`Scraping.ScrapeAll`).

Every store becomes a `NetCafe` record with a name, location, hours, phone and
URL. The program then lists the stores or searches them by keyword.

This project models the two core parts of the program.

- **The extractors of `scraper.go`.**
  - Each one loads a page.
  - Each one runs a callback over every matching container.
  - Each one appends the record that the callback builds.
  - Kaikatsu has a primary pass over `.shop-list-item` containers. When that
    pass yields nothing, a second pass classifies the text lines of every `li`.
  - `ScrapeAll` runs the three extractors in turn. It collects the records of
    the ones that succeed and a labelled message for each one that fails. It
    never fails as a whole.
- **The store of `main.go`.**
  - The `NetCafe` record and the sample data.
  - `SearchByName`, a case-insensitive substring search over names and
    locations.
  - `GetAll`.

The HTTP fetch and the HTML parser are outside the model. A page is a value:

- `Unreachable(cause)` when the transport failed.
- `Response(code, status, body)` otherwise. The body is either `Malformed(cause)`
  or `Document(listing)`.

A listing holds what the CSS selectors of one extractor report, container by
container and in document order. That is the text of each selector, or the
first matching element, plus the first link's `href`.

Modules:

- `Text`:
  - `strings.TrimSpace` with Go's white-space set.
  - `strings.Contains` and `strings.HasPrefix`.
  - `strings.Split` and its inverse, join.
  - `strings.ToLower` on ASCII letters.
  - The phone pattern `\d{2,4}-\d{2,4}-\d{4}`.
- `NetCafes`: the record, the sample stores, the search specification and the
  `NetCafeService` class.
- `Extraction`: what the three extractors share.
  - The load prologue with its three error messages.
  - The field rules:
    - first non-blank selector;
    - default hours;
    - absolute URL;
    - brand prefix.
  - "The first line naming a shop".
  - `FilterMap`, the specification of every `Each` loop.
- `Kaikatsu`, `Jiqoo`, `Manboo`: one extractor each.
  - The callback body is a method (`Read*`), proved equal to a rule function.
  - The `Each` loop is a method (`Extract*`), proved equal to `FilterMap` of that
    rule.
  - The scraper is a method (`Scrape*`), proved equal to a function of the page.
- `Scraping`: `ScrapeAll`.

## Model

| member | source | states |
|---|---|---|
| NetCafes.SampleStores | main.go:35-73 | there are five sample stores; the first is the 快活CLUB 新宿西口店 record as written; every name is non-empty and every store is open 24時間営業 |
| NetCafes.Matches | main.go:80-81 | a store matches a lower-cased needle when its lower-cased name or lower-cased location contains it |
| NetCafes.Search | main.go:75-86 | the stores that match the lower-cased keyword, in order; never more than the stores (characterised by SearchMembers and SearchAppend) |
| NetCafes.NetCafeService.constructor | main.go:26-33 | a new service holds exactly the sample stores |
| NetCafes.NetCafeService.WithStores | main.go:163-168 | a service built from scraped records holds exactly those records |
| NetCafes.NetCafeService.SearchByName | main.go:75-86 | the loop returns `Search(stores, keyword)`: the stores whose lower-cased name or location contains the lower-cased keyword, in store order; it changes nothing |
| NetCafes.NetCafeService.GetAll | main.go:88-90 | returns the stored list itself (main_test.go:88-90) |
| NetCafes.SearchMembers | main.go:78-84 | a store is in the result if and only if it is one of the stores and its lower-cased name or location contains the lower-cased keyword |
| NetCafes.SearchAppend | main.go:78-84 | searching a concatenation is concatenating the searches, so the result keeps the stores' order |
| NetCafes.SearchOne | main.go:80-83 | one store is returned exactly when it matches |
| NetCafes.SearchEmptyKeyword | main.go:77-84 | the empty keyword returns every store, all five of the sample data (main_test.go:67) |
| NetCafes.SearchIgnoresCase | main.go:77 | lower-casing the keyword first does not change the result |
| NetCafes.SampleSearchDice | main_test.go:65 | "DICE" finds exactly the one store named "DiCE 秋葉原店" |
| NetCafes.SampleSearchShinjuku | main_test.go:60 | "新宿" finds exactly the 快活CLUB 新宿西口店 and アプレシオ 新宿歌舞伎町店 stores, in that order |
| NetCafes.SampleSearchYokohama | main_test.go:66 | "横浜" finds nothing |
| Text.IsSpace | scraper.go:102 | Go's `unicode.IsSpace`: the ASCII white space characters, U+0085, U+00A0 and the Unicode White_Space code points |
| Text.Contains | scraper.go:95 | `strings.Contains`: the substring occurs at some position |
| Text.HasPrefix | scraper.go:68 | `strings.HasPrefix` |
| Text.ContainsPhone | scraper.go:111 | the unanchored match of `\d{2,4}-\d{2,4}-\d{4}`: somewhere in the text stand two to four digits, a dash, two to four digits, a dash and four digits |
| Text.Trim | scraper.go:102 | `strings.TrimSpace`: the result is no longer than the input and neither starts nor ends with white space |
| Text.TrimPadded | scraper.go:102 | the trimmed text is the input with only white space cut from its two ends |
| Text.TrimExact | scraper.go:102 | a text that is white space, then a core with non-space ends, then white space, trims to exactly that core |
| Text.TrimTwice | scraper.go:102 | trimming is idempotent |
| Text.TrimBlank | scraper.go:103 | a line trims to "" exactly when all its characters are white space |
| Text.Split | scraper.go:96 | `strings.Split`: at least one piece, and no piece holds the separator |
| Text.JoinSplit | scraper.go:96 | joining the pieces with the separator gives back the text |
| Text.SplitJoin | scraper.go:96 | splitting a join of separator-free pieces gives back the pieces |
| Text.ToLower | main.go:77 | the result has the input's length and lower-cases each character in place |
| Text.ToLowerTwice | main.go:77 | lower-casing is idempotent |
| Text.PhoneLength | scraper.go:111 | a text matching the phone pattern is at least 10 characters long |
| Extraction.Load | scraper.go:28-42 | the extractor goes on only for a 200 response with parsable markup; a transport error gives "failed to fetch page: …", another status gives "status code error: <code> <status>", bad markup gives "failed to parse HTML: …" |
| Extraction.NatDecimal | scraper.go:36 | `%d` of a natural number is a non-empty string of decimal digits |
| Extraction.DecimalRoundTrip | scraper.go:36 | reading the printed digits back gives the number |
| Extraction.FirstNonBlank | scraper.go:47-65 | the first selector's trimmed text when it is not blank, else the second's; the result is trimmed, and it is "" exactly when both are blank |
| Extraction.Hours | scraper.go:57-60 | the default 24時間営業 when the hours text is empty, else that text trimmed |
| Extraction.HoursBlank | scraper.go:57-60 | hours text made only of white space gives "" hours, not the default |
| Extraction.Absolutize | scraper.go:67-70 | an href is "" exactly when the URL is; a relative href gets the origin in front; an href starting with http is kept; with an http origin every non-empty URL starts with http |
| Extraction.AbsolutizeTwice | scraper.go:67-70 | making a URL absolute twice equals doing it once |
| Extraction.AbsolutizeRelative | scraper.go:164-167 | a relative href becomes the origin followed by the href |
| Extraction.AddBrand | scraper.go:169-172 | the result contains the brand; a name that contains it already is unchanged, otherwise the result is "brand " followed by the name |
| Extraction.AddBrandTwice | scraper.go:239-241 | the contains-based brand prefix is idempotent |
| Extraction.ShopLineContains | scraper.go:107 | the shop-line test is `strings.Contains(line, "店")` |
| Extraction.ShopLineInText | scraper.go:95-107 | if a trimmed line of a text holds 店, the text holds 店 |
| Extraction.FirstShopLine | scraper.go:228-236 | the name found by the line loop is "" exactly when no trimmed line holds 店 |
| Extraction.FirstShopLineIsFirst | scraper.go:228-236 | when line k is the first whose trimmed text holds 店, the name is that trimmed line |
| Extraction.FilterMap | scraper.go:46-81 | an `Each` loop that appends at most one record per container yields no more records than containers |
| Extraction.FilterMapStep | scraper.go:72-80 | one more container appends exactly what the callback yields for it |
| Extraction.FilterMapMembers | scraper.go:72-80 | a record is yielded exactly when the callback yields it for some container |
| Extraction.FilterMapEmpty | scraper.go:83-85 | nothing is yielded exactly when the callback yields nothing for every container |
| Kaikatsu.PrimaryShop | scraper.go:46-81 | a container yields a record exactly when `.shop-name` or else `h3` has non-blank text; its fields are "快活CLUB " plus that name, the first non-blank address and phone, the hours rule and the absolute href |
| Kaikatsu.ReadPrimary | scraper.go:47-80 | the callback body computes PrimaryShop of its container |
| Kaikatsu.ExtractPrimary | scraper.go:46-81 | the primary loop returns FilterMap of PrimaryShop over the containers, in document order |
| Kaikatsu.PrimaryRecords | scraper.go:72-80 | the primary records are exactly the containers' PrimaryShop records, and every name is the brand followed by a non-empty name |
| Kaikatsu.PrimaryPrefixTwice | scraper.go:74 | a name that already starts with "快活CLUB " gets the brand a second time, so the primary prefixing is not idempotent |
| Kaikatsu.IsAreaLine | scraper.go:109 | a line names an address when it holds 区 or 市 |
| Kaikatsu.AreaLineContains | scraper.go:109 | the address-line test is the source's two `strings.Contains` tests, for 区 or for 市 |
| Kaikatsu.ClassifyLine | scraper.go:102-113 | one turn of the line loop: a name or an address once set is never overwritten, while the phone is either kept or replaced by the trimmed line |
| Kaikatsu.Classify | scraper.go:101-114 | the fields after all lines: the name is "" or holds 店, the address is "" or holds 区 or 市, the phone is "" or matches the phone pattern |
| Kaikatsu.ClassifyLines | scraper.go:101-114 | the line loop, `continue` included, computes Classify of the lines |
| Kaikatsu.ClassifyName | scraper.go:107-108 | the name is the first trimmed line holding 店 |
| Kaikatsu.LastIsName | scraper.go:107-108 | the last line is the name line exactly when it holds 店 and no earlier line filled the name |
| Kaikatsu.ClassifyAddressNone | scraper.go:109-110 | the address stays "" exactly when no line other than the name line holds 区 or 市 |
| Kaikatsu.LastIsAddress | scraper.go:109-110 | the last line is the address line exactly when it is not the name line, holds 区 or 市, and no earlier line filled the address |
| Kaikatsu.ClassifyAddressIsFirst | scraper.go:109-110 | the address is the first line, other than the name line, holding 区 or 市 |
| Kaikatsu.ClassifyPhoneNone | scraper.go:111-112 | the phone stays "" exactly when no line taken as neither name nor address matches the phone pattern |
| Kaikatsu.ClassifyPhoneIsLast | scraper.go:111-112 | the phone is the last such line: a later match overwrites an earlier one |
| Kaikatsu.PrefixStable | scraper.go:101-114 | whether a line is the name or address line does not depend on the lines after it |
| Kaikatsu.FallbackName | scraper.go:116-119 | the result starts with "快活CLUB"; a name that starts with it is kept, any other gets "快活CLUB " in front |
| Kaikatsu.FallbackNameTwice | scraper.go:116-119 | the fallback prefixing is idempotent |
| Kaikatsu.FallbackShopFields | scraper.go:93-127 | an `li` yields a record exactly when one of its trimmed lines holds 店; the record is the branded first such line, the classified address and phone, 24時間営業 and the site root |
| Kaikatsu.FallbackShop | scraper.go:94-128 | a record's name starts with 快活CLUB, its hours are 24時間営業, its URL the site root, its address "" or a ward/city line and its phone "" or a phone line (exact condition and fields: FallbackShopFields) |
| Kaikatsu.ReadFallback | scraper.go:94-128 | the `li` callback body computes FallbackShop of its text |
| Kaikatsu.ExtractFallback | scraper.go:90-132 | the fallback loop returns FilterMap of FallbackShop over the `li` texts, in document order |
| Kaikatsu.KaikatsuClub | scraper.go:26-88 | fails exactly when loading fails, with the load's message; on success it holds no more records than the containers or than the `li` elements |
| Kaikatsu.ScrapeKaikatsuClub | scraper.go:26-88 | the extractor returns KaikatsuClub(page): a load error, or the primary records, or the fallback records when the primary pass found none |
| Kaikatsu.FallbackGate | scraper.go:83-85 | a load error is passed on unchanged; the fallback records are returned exactly when no container has a non-blank name, the primary records otherwise |
| Kaikatsu.KaikatsuNamed | scraper.go:72-80 | every Kaikatsu record has a non-empty name starting with "快活CLUB" |
| Kaikatsu.EmptyListing | scraper.go:46-87 | a loaded page whose containers all have blank names and none of whose `li` lines holds 店 gives no records and no error |
| Kaikatsu.FixtureLines | scraper_test.go:155-159 | the test's first `li` splits into a blank line, three indented lines and the closing indentation |
| Kaikatsu.FixtureFields | scraper_test.go:155-159 | those lines classify into name 快活CLUB 新宿南口店, address 東京都新宿区新宿4-1-1 and phone 03-1234-5678 |
| Kaikatsu.FallbackFixture | scraper_test.go:148-176 | the test's first `li` yields exactly that record, with no second brand prefix, 24時間営業 and the site root |
| Jiqoo.Shop | scraper.go:154-181 | a container yields a record exactly when its name is not blank; the record is the branded trimmed name, trimmed address, the hours rule, trimmed phone and the absolute href |
| Jiqoo.ReadShop | scraper.go:155-180 | the callback body computes Shop of its container |
| Jiqoo.ExtractShops | scraper.go:154-181 | the loop returns FilterMap of Shop over the containers, in document order |
| Jiqoo.JiqooShops | scraper.go:134-183 | fails exactly when loading fails, with the load's message; on success it holds at most one record per container |
| Jiqoo.ScrapeJiqoo | scraper.go:134-183 | the extractor returns JiqooShops(page): the load error, or the records of the containers |
| Jiqoo.JiqooRecords | scraper.go:154-181 | the records are exactly the containers' Shop records; each name is non-empty and contains 自遊空間; each URL is empty or starts with http |
| Jiqoo.JiqooNoNames | scraper.go:154-183 | a page whose containers all have blank names gives no records and no error |
| Manboo.ElemText | scraper.go:213-226 | an absent element gives "", a present one its trimmed text |
| Manboo.ItemName | scraper.go:213-236 | the name element's text when it is not blank; otherwise "" or a line holding 店 |
| Manboo.ItemNameFirst | scraper.go:228-236 | without a name element, the name is the first trimmed line holding 店 |
| Manboo.ShopFirstLine | scraper.go:228-248 | a Tokyo text without a name element yields exactly the record named by its first trimmed line holding 店, branded, with the element address and phone, 24時間営業 and the site URL |
| Manboo.FirstShopLineOf | scraper.go:228-236 | the line loop, without a break, keeps the first trimmed line holding 店 |
| Manboo.Shop | scraper.go:207-250 | a record comes only from a text holding 東京; its name is non-empty, its hours 24時間営業 and its URL the site's (exact condition: ShopIff) |
| Manboo.ReadShop | scraper.go:207-250 | the callback body computes Shop of its container |
| Manboo.ExtractShops | scraper.go:206-251 | the loop returns FilterMap of Shop over the containers, in document order |
| Manboo.ManbooShops | scraper.go:186-253 | fails exactly when loading fails, with the load's message; on success it holds at most one record per container |
| Manboo.ScrapeManboo | scraper.go:186-253 | the extractor returns ManbooShops(page): the load error, or the records of the containers |
| Manboo.ShopIff | scraper.go:208-238 | a container yields a record exactly when its text holds 東京 and it has a name element with non-blank text or a line holding 店 |
| Manboo.ShopFields | scraper.go:238-248 | every record's name contains マンボー; hours are 24時間営業; the URL is the site's; address and phone are the trimmed texts of their elements |
| Manboo.ShopName | scraper.go:213-241 | the name is the branded name element's text, or else a line holding 店 (which line: Manboo.ShopFirstLine) |
| Manboo.ManbooRecords | scraper.go:206-251 | the records are exactly the containers' Shop records; each has a non-empty name with マンボー, 24時間営業 and the site URL |
| Manboo.NoTokyo | scraper.go:206-253 | a loaded page none of whose texts mentions 東京 gives no records and no error |
| Manboo.OutsideTokyo | scraper.go:238 | a text without 東京 yields no record, even when it names a shop |
| Scraping.Records | scraper.go:261-267 | a failed source contributes no records, a successful one all of its records |
| Scraping.Report | scraper.go:261-264 | a failed source contributes one message, its label, ": " and the error; a successful one none |
| Scraping.Combine | scraper.go:256-297 | there are no messages exactly when all three sources succeed, and then the records are the three lists in source order |
| Scraping.ScrapeAll | scraper.go:256-297 | the call always succeeds; the records are Kaikatsu's, Jiqoo's and Manboo's in that order, from the sources that succeeded; the messages are those of the failed sources in the same order |
| Scraping.CombineMembers | scraper.go:256-297 | a record is returned exactly when a successful source returned it; one message per failed source; the record count is the sum of the successful sources' counts |
| Scraping.FailureIsolated | scraper.go:271-277 | a failing Jiqoo costs only its own records and adds only its own message |
| Scraping.AllFail | scraper_test.go:134-139 | when no page can be fetched there are no records and three messages, one per site in order, and the call still succeeds |
| Scraping.FetchFailure | scraper.go:263 | a fetch failure is reported as label, ": failed to fetch page: " and the cause |
| Scraping.CombinedNamed | scraper.go:256-297 | every returned record has a non-empty name carrying its own chain's brand: a Kaikatsu record's name starts with 快活CLUB, a Jiqoo record's contains 自遊空間, a Manboo record's contains マンボー |

## Quirks the model keeps

- **Brand prefixing.**
  - The primary Kaikatsu pass puts "快活CLUB " in front of every name, even when the name already carries it (scraper.go:74). `Kaikatsu.PrimaryPrefixTwice` proves such a name gets the brand twice.
  - The Kaikatsu line fallback prefixes only a name that does not start with "快活CLUB" (scraper.go:117-119).
  - Jiqoo and Manboo prefix only a name that does not contain their brand (scraper.go:170-171, 239-240).
  - These three conditional rules are idempotent: `Kaikatsu.FallbackNameTwice`, `Extraction.AddBrandTwice`.
- **Fallback fields.**
  - In the Kaikatsu line fallback, the name and the address are kept from the first line that fills them.
  - The phone is replaced by every later line that matches the phone pattern (scraper.go:111-112), so the last such line wins. See `Kaikatsu.ClassifyPhoneIsLast`.

## Left out

- The HTTP client, its timeouts and headers, and goquery's HTML parsing and
  CSS selection are not modelled. A page is an abstract `Page` value that
  carries what the selectors report.
- Error wrapping with `%w` is modelled as string concatenation of the cause's
  message.
- `FetchFromAPI` (main.go:92-110), JSON decoding, `printCafe`, `main`, flag
  handling and all printing are not modelled. This includes the messages that
  `ScrapeAll` prints: they are returned as `failures`.
- Strings are sequences of Unicode code points rather than UTF-8 bytes.
  - The substring and prefix tests give the same answer on either
    representation.
  - `strings.TrimSpace` removes whole white-space code points, so it also agrees.
  - The phone pattern matches ASCII digits and dashes only, so it also agrees.
  - ASCII lower-casing also agrees.
- Text.ToLower: only ASCII letters are lower-cased. Go's `strings.ToLower` also
  folds non-ASCII letters, such as full-width Latin letters. The sample data has
  none.
- Text.PhoneLength: the model states only the length bound that the pattern
  implies. The regular-expression engine itself is not modelled. `\d` is the
  ASCII digit class, as in Go's RE2 syntax.
- Go's nil slices are the empty sequence. `ScrapeAll` with no records returns
  `Ok([])`.
- The client's 15-second timeout is not a clock in the model.
  - A request that times out before a response arrives is an `Unreachable`
    page, so that source contributes a "failed to fetch page" message and no
    records (scraper_test.go:132-139).
  - A timeout while the body is read is a `Malformed` body, giving "failed to
    parse HTML".
- Some search-table rows are not restated as concrete lemmas.
  - The 渋谷, 池袋, 秋葉原 and 快活 rows (main_test.go:61-64).
  - The location table of main_test.go:143-165: 新宿区 2, 渋谷区 1, 豊島区 1,
    千代田区 1.
  - `NetCafes.SearchMembers` gives the rule that decides each of them.
