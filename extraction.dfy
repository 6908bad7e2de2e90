/** What the three site extractors of scraper.go share: the outcome of
    fetching and parsing a page, the rules that turn selector texts into
    fields (first non-blank alternative, default hours, absolute URLs, brand
    prefixes), the line rule "first line naming a shop", and the loop shape
    "run every container through a rule, keep the records it yields". */
module Extraction {
  import opened Text
  import opened NetCafes

  datatype Option<+T> = None | Some(value: T)

  /** Go's `([]NetCafe, error)` and similar pairs: a value or an error message. */
  datatype Result<+T> = Ok(value: T) | Err(error: string)

  /** The markup behind a response, as the HTML parser hands it back. */
  datatype Parsed<+D> = Document(doc: D) | Malformed(cause: string)

  /** One GET of a source's listing page: either the transport failed, or a
      response arrived with a status code, a status text and a body. */
  datatype Page<+D> =
    | Unreachable(cause: string)
    | Response(code: int, status: string, body: Parsed<D>)

  /** Opening hours used when a source gives none. */
  const AllDay: string := "24時間営業"

  /** The digit character for `d`. */
  function DigitChar(d: nat): (c: char)
    requires d < 10
    ensures IsDigit(c)
  {
    ('0' as int + d) as char
  }

  /** Go's `%d` for a non-negative integer. */
  function NatDecimal(n: nat): (s: string)
    ensures |s| >= 1
    ensures forall k :: 0 <= k < |s| ==> IsDigit(s[k])
  {
    if n < 10 then [DigitChar(n)] else NatDecimal(n / 10) + [DigitChar(n % 10)]
  }

  /** The number a string of decimal digits denotes. */
  function DecimalValue(s: string): nat
    requires forall k :: 0 <= k < |s| ==> IsDigit(s[k])
  {
    if s == [] then 0
    else
      assert IsDigit(s[|s| - 1]);
      10 * DecimalValue(s[..|s| - 1]) + (s[|s| - 1] as int - '0' as int)
  }

  /** Reading the digits back gives the number that was printed. */
  lemma {:induction false} DecimalRoundTrip(n: nat)
    ensures DecimalValue(NatDecimal(n)) == n
  {
    if n >= 10 {
      DecimalRoundTrip(n / 10);
      var s := NatDecimal(n);
      assert s[..|s| - 1] == NatDecimal(n / 10);
    }
  }

  /** Go's `%d` for any integer. */
  function IntDecimal(n: int): string {
    if n < 0 then "-" + NatDecimal(-n) else NatDecimal(n)
  }

  /** The fetch-and-parse prologue every Scrape* function runs before
      extracting: a transport error, a status other than 200 and unparsable
      markup each end the call with their own message. */
  function Load<D>(page: Page<D>): (r: Result<D>)
    ensures r.Ok? <==> page.Response? && page.code == 200 && page.body.Document?
    ensures r.Ok? ==> r.value == page.body.doc
    ensures page.Unreachable? ==> r == Err("failed to fetch page: " + page.cause)
    ensures page.Response? && page.code != 200
            ==> r == Err("status code error: " + IntDecimal(page.code) + " " + page.status)
    ensures page.Response? && page.code == 200 && page.body.Malformed?
            ==> r == Err("failed to parse HTML: " + page.body.cause)
  {
    match page
    case Unreachable(cause) => Err("failed to fetch page: " + cause)
    case Response(code, status, body) =>
      if code != 200 then Err("status code error: " + IntDecimal(code) + " " + status)
      else match body
        case Malformed(cause) => Err("failed to parse HTML: " + cause)
        case Document(doc) => Ok(doc)
  }

  /** The trimmed text of the first of two selector alternatives that is not
      blank, or "" when both are. */
  function FirstNonBlank(first: string, second: string): (text: string)
    ensures Trim(text) == text
    ensures text == "" <==> Trim(first) == "" && Trim(second) == ""
    ensures Trim(first) != "" ==> text == Trim(first)
    ensures Trim(first) == "" ==> text == Trim(second)
  {
    TrimTwice(first);
    TrimTwice(second);
    var text := Trim(first);
    if text == "" then Trim(second) else text
  }

  /** The hours field: the default when the hours selector found no text at
      all, otherwise that text trimmed. */
  function Hours(raw: string): (hours: string)
    ensures raw == "" ==> hours == AllDay
    ensures raw != "" ==> hours == Trim(raw)
  {
    if raw != "" then Trim(raw) else AllDay
  }

  /** Hours text made only of white space is not replaced by the default: the
      record's hours become "". */
  lemma HoursBlank(raw: string)
    requires raw != ""
    requires forall k :: 0 <= k < |raw| ==> IsSpace(raw[k])
    ensures Hours(raw) == ""
  {
    TrimBlank(raw);
  }

  /** A non-empty href that does not start with "http" is made absolute by
      putting the site's origin in front; anything else is kept. */
  function Absolutize(origin: string, href: string): (url: string)
    ensures url == "" <==> href == ""
    ensures HasPrefix(origin, "http") ==> url == "" || HasPrefix(url, "http")
    ensures url == href || url == origin + href
    ensures HasPrefix(href, "http") ==> url == href
  {
    if !HasPrefix(href, "http") && href != "" then origin + href else href
  }

  /** Making a URL absolute twice is making it absolute once. */
  lemma AbsolutizeTwice(origin: string, href: string)
    requires HasPrefix(origin, "http")
    ensures Absolutize(origin, Absolutize(origin, href)) == Absolutize(origin, href)
  {
    var url := Absolutize(origin, href);
    if url != "" {
      assert "http" <= url;
    }
  }

  /** A relative href is the origin followed by the href. */
  lemma AbsolutizeRelative(origin: string, href: string)
    requires href != "" && !HasPrefix(href, "http")
    ensures Absolutize(origin, href) == origin + href
    ensures HasPrefix(Absolutize(origin, href), origin)
  {
  }

  /** The Jiqoo and Manboo brand rule: put "brand " in front of the name
      unless the brand already occurs somewhere in it. */
  function AddBrand(brand: string, name: string): (branded: string)
    ensures Contains(branded, brand)
    ensures Contains(name, brand) ==> branded == name
    ensures !Contains(name, brand) ==> branded == brand + " " + name
    ensures |branded| >= |name|
  {
    if Contains(name, brand) then name
    else
      ContainsPrefix(brand, " " + name);
      assert brand + " " + name == brand + (" " + name);
      brand + " " + name
  }

  /** Branding is idempotent. */
  lemma AddBrandTwice(brand: string, name: string)
    ensures AddBrand(brand, AddBrand(brand, name)) == AddBrand(brand, name)
  {
  }

  /** A line names a shop when it contains the character 店 ("shop"), the
      test `strings.Contains(line, "店")` (see ShopLineContains). */
  predicate IsShopLine(line: string) {
    '店' in line
  }

  /** IsShopLine is the source's substring test. */
  lemma ShopLineContains(line: string)
    ensures IsShopLine(line) <==> Contains(line, "店")
  {
    ContainsChar(line, '店');
  }

  /** A text one of whose trimmed lines names a shop contains 店 itself. */
  lemma ShopLineInText(text: string, k: int)
    requires 0 <= k < |Split(text, '\n')|
    requires IsShopLine(Trim(Split(text, '\n')[k]))
    ensures Contains(text, "店")
  {
    TrimChars(Split(text, '\n')[k], '店');
    SplitChars(text, '\n', k, '店');
    ContainsChar(text, '店');
  }

  /** Line `k` is the first line whose trimmed text names a shop. */
  ghost predicate FirstShopLineAt(lines: seq<string>, k: int) {
    && 0 <= k < |lines|
    && IsShopLine(Trim(lines[k]))
    && forall j :: 0 <= j < k ==> !IsShopLine(Trim(lines[j]))
  }

  /** The first trimmed line containing 店, or "" when there is none. */
  function FirstShopLine(lines: seq<string>): (name: string)
    ensures name == "" <==> forall k :: 0 <= k < |lines| ==> !IsShopLine(Trim(lines[k]))
  {
    if lines == [] then ""
    else
      var init := lines[..|lines| - 1];
      var earlier := FirstShopLine(init);
      var line := Trim(lines[|lines| - 1]);
      assert forall k :: 0 <= k < |init| ==> init[k] == lines[k];
      if earlier != "" then earlier
      else if IsShopLine(line) then line
      else ""
  }

  /** The line FirstShopLine picks is the first line naming a shop. */
  lemma {:induction false} FirstShopLineIsFirst(lines: seq<string>, k: int)
    requires FirstShopLineAt(lines, k)
    ensures FirstShopLine(lines) == Trim(lines[k])
  {
    var init := lines[..|lines| - 1];
    if k < |init| {
      assert FirstShopLineAt(init, k) by {
        assert forall j :: 0 <= j <= k ==> init[j] == lines[j];
      }
      FirstShopLineIsFirst(init, k);
    } else {
      assert forall j :: 0 <= j < |init| ==> init[j] == lines[j];
    }
  }

  /** The records a rule yields for a list of containers, in container order:
      the loop shape of every `Each` callback that appends to `cafes`. */
  function FilterMap<T>(items: seq<T>, rule: T -> Option<NetCafe>): (cafes: seq<NetCafe>)
    ensures |cafes| <= |items|
  {
    if items == [] then []
    else
      var last := rule(items[|items| - 1]);
      FilterMap(items[..|items| - 1], rule) + (if last.Some? then [last.value] else [])
  }

  /** One more container appends what the rule yields for it: the step of
      every extraction loop. */
  lemma FilterMapStep<T>(items: seq<T>, i: int, rule: T -> Option<NetCafe>)
    requires 0 <= i < |items|
    ensures FilterMap(items[..i + 1], rule)
      == FilterMap(items[..i], rule) + (if rule(items[i]).Some? then [rule(items[i]).value] else [])
  {
    assert items[..i + 1][..i] == items[..i];
  }

  /** A record is yielded exactly when some container's rule yields it. */
  lemma {:induction false} FilterMapMembers<T>(items: seq<T>, rule: T -> Option<NetCafe>, cafe: NetCafe)
    ensures cafe in FilterMap(items, rule) <==> exists k :: 0 <= k < |items| && rule(items[k]) == Some(cafe)
  {
    if items != [] {
      var init := items[..|items| - 1];
      FilterMapMembers(init, rule, cafe);
      if exists k :: 0 <= k < |items| && rule(items[k]) == Some(cafe) {
        var k :| 0 <= k < |items| && rule(items[k]) == Some(cafe);
        if k < |init| {
          assert init[k] == items[k];
        }
      }
    }
  }

  /** Nothing is yielded exactly when the rule rejects every container. */
  lemma {:induction false} FilterMapEmpty<T>(items: seq<T>, rule: T -> Option<NetCafe>)
    ensures FilterMap(items, rule) == [] <==> forall k :: 0 <= k < |items| ==> rule(items[k]).None?
  {
    if items != [] {
      var init := items[..|items| - 1];
      FilterMapEmpty(init, rule);
      assert forall k :: 0 <= k < |init| ==> init[k] == items[k];
    }
  }
}
