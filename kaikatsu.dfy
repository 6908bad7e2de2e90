/** The Kaikatsu CLUB extractor (`ScrapeKaikatsuClub` and
    `scrapeKaikatsuAlternative` in scraper.go).  A primary pass reads the
    `.shop-list-item` containers through their class selectors; only when it
    yields no record does a fallback pass classify the text lines of every
    `li` element. */
module Kaikatsu {
  import opened Text
  import opened NetCafes
  import opened Extraction

  const Origin: string := "https://www.kaikatsu.jp"

  /** The brand put in front of every primary-pass name. */
  const Brand: string := "快活CLUB "

  /** The URL every fallback record points at. */
  const RootURL: string := "https://www.kaikatsu.jp/"

  /** What the selectors report for one `.shop-list-item` container: the text
      of all elements matching each selector ("" when none matches) and the
      `href` of its first link ("" when there is none). */
  datatype ShopListItem = ShopListItem(
    shopName: string, h3: string,
    shopAddress: string, address: string,
    shopHours: string,
    shopTel: string, tel: string,
    href: string)

  /** The parsed listing page: its `.shop-list-item` containers and the texts
      of its `li` elements, both in document order. */
  datatype Listing = Listing(shopListItems: seq<ShopListItem>, listItems: seq<string>)

  // ---------------------------------------------------------------------
  // Primary pass

  /** The record one container yields, if any. */
  function PrimaryShop(item: ShopListItem): (shop: Option<NetCafe>)
    ensures shop.Some? <==> Trim(item.shopName) != "" || Trim(item.h3) != ""
    ensures shop.Some? ==> shop.value.name == Brand + FirstNonBlank(item.shopName, item.h3)
    ensures shop.Some? ==> shop.value.location == FirstNonBlank(item.shopAddress, item.address)
    ensures shop.Some? ==> shop.value.hours == Hours(item.shopHours)
    ensures shop.Some? ==> shop.value.phone == FirstNonBlank(item.shopTel, item.tel)
    ensures shop.Some? ==> shop.value.url == Absolutize(Origin, item.href)
  {
    var name := FirstNonBlank(item.shopName, item.h3);
    if name == "" then None
    else Some(NetCafe(Brand + name, FirstNonBlank(item.shopAddress, item.address),
                      Hours(item.shopHours), FirstNonBlank(item.shopTel, item.tel),
                      Absolutize(Origin, item.href)))
  }

  /** The body of the `Each` callback over `.shop-list-item`: the record to
      append for one container, if any. */
  method ReadPrimary(s: ShopListItem) returns (shop: Option<NetCafe>)
    ensures shop == PrimaryShop(s)
  {
    var name := Trim(s.shopName);
    if name == "" {
      name := Trim(s.h3);
    }
    var address := Trim(s.shopAddress);
    if address == "" {
      address := Trim(s.address);
    }
    var hours := AllDay;
    if s.shopHours != "" {
      hours := Trim(s.shopHours);
    }
    var phone := Trim(s.shopTel);
    if phone == "" {
      phone := Trim(s.tel);
    }
    var shopURL := s.href;
    if !HasPrefix(shopURL, "http") && shopURL != "" {
      shopURL := Origin + shopURL;
    }
    if name != "" {
      return Some(NetCafe(Brand + name, address, hours, phone, shopURL));
    }
    return None;
  }

  /** The primary pass: every container in document order, appending what
      the callback yields. */
  method ExtractPrimary(items: seq<ShopListItem>) returns (cafes: seq<NetCafe>)
    ensures cafes == FilterMap(items, PrimaryShop)
  {
    cafes := [];
    for i := 0 to |items|
      invariant cafes == FilterMap(items[..i], PrimaryShop)
    {
      FilterMapStep(items, i, PrimaryShop);
      var shop := ReadPrimary(items[i]);
      if shop.Some? {
        cafes := cafes + [shop.value];
      }
    }
    assert items[..|items|] == items;
  }

  /** A container yields a record exactly when its name text is not blank, and
      every record's name is the brand followed by that non-blank name. */
  lemma PrimaryRecords(items: seq<ShopListItem>, cafe: NetCafe)
    ensures cafe in FilterMap(items, PrimaryShop) <==>
      exists k :: 0 <= k < |items| && PrimaryShop(items[k]) == Some(cafe)
    ensures cafe in FilterMap(items, PrimaryShop) ==>
      HasPrefix(cafe.name, Brand) && |cafe.name| > |Brand|
  {
    FilterMapMembers(items, PrimaryShop, cafe);
  }

  /** The primary pass prefixes unconditionally: a container whose name
      already carries the brand gets it twice, so the prefixing is not
      idempotent. */
  lemma PrimaryPrefixTwice(item: ShopListItem)
    requires HasPrefix(FirstNonBlank(item.shopName, item.h3), Brand)
    ensures PrimaryShop(item).Some?
    ensures HasPrefix(PrimaryShop(item).value.name, Brand + Brand)
  {
    var name := FirstNonBlank(item.shopName, item.h3);
    assert Brand + name == Brand + Brand + name[|Brand|..];
  }

  // ---------------------------------------------------------------------
  // Fallback pass: line classification

  /** A line names an address when it contains 区 (ward) or 市 (city), the
      test `strings.Contains(line, "区") || strings.Contains(line, "市")`. */
  predicate IsAreaLine(line: string) {
    '区' in line || '市' in line
  }

  /** IsAreaLine is the source's pair of substring tests. */
  lemma AreaLineContains(line: string)
    ensures IsAreaLine(line) <==> Contains(line, "区") || Contains(line, "市")
  {
    ContainsChar(line, '区');
    ContainsChar(line, '市');
  }

  /** The three fields the fallback pass collects from the lines of an `li`. */
  datatype LineFields = LineFields(name: string, address: string, phone: string)

  /** One turn of the line loop: skip a blank line; otherwise the first test
      that passes decides which field the line fills. */
  function ClassifyLine(fields: LineFields, raw: string): (next: LineFields)
    ensures fields.name != "" ==> next.name == fields.name
    ensures fields.address != "" ==> next.address == fields.address
    ensures next.phone == fields.phone || next.phone == Trim(raw)
  {
    var line := Trim(raw);
    if line == "" then fields
    else if IsShopLine(line) && fields.name == "" then fields.(name := line)
    else if IsAreaLine(line) && fields.address == "" then fields.(address := line)
    else if ContainsPhone(line) then fields.(phone := line)
    else fields
  }

  /** The fields after the line loop has seen every line. */
  function Classify(lines: seq<string>): (fields: LineFields)
    ensures fields.name == "" || IsShopLine(fields.name)
    ensures fields.address == "" || IsAreaLine(fields.address)
    ensures fields.phone == "" || ContainsPhone(fields.phone)
  {
    if lines == [] then LineFields("", "", "")
    else ClassifyLine(Classify(lines[..|lines| - 1]), lines[|lines| - 1])
  }

  /** The line loop of `scrapeKaikatsuAlternative`. */
  method ClassifyLines(lines: seq<string>) returns (fields: LineFields)
    ensures fields == Classify(lines)
  {
    var name, address, phone := "", "", "";
    for i := 0 to |lines|
      invariant LineFields(name, address, phone) == Classify(lines[..i])
    {
      assert lines[..i + 1][..i] == lines[..i];
      var line := Trim(lines[i]);
      if line == "" {
        continue;
      }
      if IsShopLine(line) && name == "" {
        name := line;
      } else if IsAreaLine(line) && address == "" {
        address := line;
      } else if ContainsPhone(line) {
        phone := line;
      }
    }
    assert lines[..|lines|] == lines;
    fields := LineFields(name, address, phone);
  }

  /** Line `k` is the first line, other than the name line, naming a ward or city. */
  ghost predicate FirstAreaLineAt(lines: seq<string>, k: int) {
    && 0 <= k < |lines|
    && !FirstShopLineAt(lines, k)
    && IsAreaLine(Trim(lines[k]))
    && forall j :: 0 <= j < k && !FirstShopLineAt(lines, j) ==> !IsAreaLine(Trim(lines[j]))
  }

  /** Line `k` was taken neither as the name nor as the address. */
  ghost predicate Unclaimed(lines: seq<string>, k: int) {
    !FirstShopLineAt(lines, k) && !FirstAreaLineAt(lines, k)
  }

  /** Line `k` is the last unclaimed line with a phone number in it. */
  ghost predicate LastPhoneLineAt(lines: seq<string>, k: int) {
    && 0 <= k < |lines|
    && Unclaimed(lines, k)
    && ContainsPhone(Trim(lines[k]))
    && forall j :: k < j < |lines| && Unclaimed(lines, j) ==> !ContainsPhone(Trim(lines[j]))
  }

  /** Whether an earlier line is the name or the address line does not depend
      on the lines after it. */
  lemma PrefixStable(lines: seq<string>, k: int)
    requires 0 <= k < |lines| - 1
    ensures FirstShopLineAt(lines[..|lines| - 1], k) <==> FirstShopLineAt(lines, k)
    ensures FirstAreaLineAt(lines[..|lines| - 1], k) <==> FirstAreaLineAt(lines, k)
  {
    var init := lines[..|lines| - 1];
    assert forall j :: 0 <= j < |init| ==> init[j] == lines[j];
    assert forall j :: 0 <= j <= k ==> (FirstShopLineAt(init, j) <==> FirstShopLineAt(lines, j));
  }

  /** The name is the first line naming a shop. */
  lemma {:induction false} ClassifyName(lines: seq<string>)
    ensures Classify(lines).name == FirstShopLine(lines)
  {
    if lines != [] {
      ClassifyName(lines[..|lines| - 1]);
    }
  }

  /** The last line is the name line exactly when it names a shop and no
      earlier line did. */
  lemma LastIsName(lines: seq<string>)
    requires lines != []
    ensures FirstShopLineAt(lines, |lines| - 1) <==>
      IsShopLine(Trim(lines[|lines| - 1])) && Classify(lines[..|lines| - 1]).name == ""
  {
    var init := lines[..|lines| - 1];
    ClassifyName(init);
    assert forall j :: 0 <= j < |init| ==> init[j] == lines[j];
  }

  /** The address stays "" exactly when no line other than the name line
      names a ward or city. */
  lemma {:induction false} ClassifyAddressNone(lines: seq<string>)
    ensures Classify(lines).address == "" <==>
      forall k :: 0 <= k < |lines| && !FirstShopLineAt(lines, k) ==> !IsAreaLine(Trim(lines[k]))
  {
    if lines != [] {
      var n := |lines| - 1;
      var init := lines[..n];
      ClassifyAddressNone(init);
      LastIsName(lines);
      forall k | 0 <= k < n {
        PrefixStable(lines, k);
      }
      assert forall j :: 0 <= j < n ==> init[j] == lines[j];
    }
  }

  /** The last line is the address line exactly when it is not the name line,
      names a ward or city, and no earlier line filled the address. */
  lemma LastIsAddress(lines: seq<string>)
    requires lines != []
    ensures FirstAreaLineAt(lines, |lines| - 1) <==>
      !FirstShopLineAt(lines, |lines| - 1) && IsAreaLine(Trim(lines[|lines| - 1]))
      && Classify(lines[..|lines| - 1]).address == ""
  {
    var n := |lines| - 1;
    var init := lines[..n];
    ClassifyAddressNone(init);
    forall k | 0 <= k < n {
      PrefixStable(lines, k);
    }
    assert forall j :: 0 <= j < n ==> init[j] == lines[j];
  }

  /** The address is the first line, other than the name line, naming a ward
      or city. */
  lemma {:induction false} ClassifyAddressIsFirst(lines: seq<string>, k: int)
    requires FirstAreaLineAt(lines, k)
    ensures Classify(lines).address == Trim(lines[k])
  {
    var n := |lines| - 1;
    var init := lines[..n];
    LastIsName(lines);
    LastIsAddress(lines);
    if k < n {
      PrefixStable(lines, k);
      assert init[k] == lines[k];
      ClassifyAddressIsFirst(init, k);
    }
  }

  /** The phone stays "" exactly when no unclaimed line holds a phone number. */
  lemma {:induction false} ClassifyPhoneNone(lines: seq<string>)
    ensures Classify(lines).phone == "" <==>
      forall k :: 0 <= k < |lines| && Unclaimed(lines, k) ==> !ContainsPhone(Trim(lines[k]))
  {
    if lines != [] {
      var n := |lines| - 1;
      var init := lines[..n];
      ClassifyPhoneNone(init);
      LastIsName(lines);
      LastIsAddress(lines);
      forall k | 0 <= k < n {
        PrefixStable(lines, k);
      }
      assert forall j :: 0 <= j < n ==> init[j] == lines[j];
      var t := Trim(lines[n]);
      if ContainsPhone(t) {
        PhoneLength(t);
      }
    }
  }

  /** The phone is the last unclaimed line holding a phone number: a later
      match overwrites an earlier one. */
  lemma {:induction false} ClassifyPhoneIsLast(lines: seq<string>, k: int)
    requires LastPhoneLineAt(lines, k)
    ensures Classify(lines).phone == Trim(lines[k])
  {
    var n := |lines| - 1;
    var init := lines[..n];
    LastIsName(lines);
    LastIsAddress(lines);
    if k < n {
      PrefixStable(lines, k);
      forall j | k < j < n {
        PrefixStable(lines, j);
      }
      assert forall j :: 0 <= j < n ==> init[j] == lines[j];
      ClassifyPhoneIsLast(init, k);
    } else {
      PhoneLength(Trim(lines[k]));
    }
  }

  // ---------------------------------------------------------------------
  // Fallback pass: records

  /** The fallback brand rule: prefix "快活CLUB " unless the name already
      starts with "快活CLUB". */
  function FallbackName(name: string): (branded: string)
    ensures HasPrefix(branded, "快活CLUB")
    ensures HasPrefix(name, "快活CLUB") ==> branded == name
    ensures !HasPrefix(name, "快活CLUB") ==> branded == Brand + name
  {
    if HasPrefix(name, "快活CLUB") then name else Brand + name
  }

  /** Unlike the primary pass, the fallback prefixing is idempotent. */
  lemma FallbackNameTwice(name: string)
    ensures FallbackName(FallbackName(name)) == FallbackName(name)
  {
  }

  /** The record one `li` text yields, if any. */
  function FallbackShop(text: string): (shop: Option<NetCafe>)
    ensures shop.Some? ==> HasPrefix(shop.value.name, "快活CLUB") && shop.value.hours == AllDay
    ensures shop.Some? ==> shop.value.url == RootURL
    ensures shop.Some? ==> shop.value.location == "" || IsAreaLine(shop.value.location)
    ensures shop.Some? ==> shop.value.phone == "" || ContainsPhone(shop.value.phone)
  {
    if !(Contains(text, "店") || Contains(text, "快活")) then None
    else
      var fields := Classify(Split(text, '\n'));
      if fields.name == "" then None
      else Some(NetCafe(FallbackName(fields.name), fields.address, AllDay, fields.phone, RootURL))
  }

  /** An `li` yields a record exactly when one of its lines names a shop: the
      gate on 店 and 快活 in front of the line loop rejects no `li` the loop
      would have named (ShopLineInText).  The record carries the first such
      line as its name (branded), the classified address and phone, the
      default hours and the site's root. */
  lemma FallbackShopFields(text: string)
    ensures var lines := Split(text, '\n');
      FallbackShop(text).Some? <==> exists k :: 0 <= k < |lines| && IsShopLine(Trim(lines[k]))
    ensures var lines := Split(text, '\n');
      FallbackShop(text).Some? ==> FallbackShop(text).value == NetCafe(
        FallbackName(FirstShopLine(lines)), Classify(lines).address, AllDay,
        Classify(lines).phone, RootURL)
  {
    var lines := Split(text, '\n');
    ClassifyName(lines);
    if exists k :: 0 <= k < |lines| && IsShopLine(Trim(lines[k])) {
      var k :| 0 <= k < |lines| && IsShopLine(Trim(lines[k]));
      ShopLineInText(text, k);
    }
  }

  /** The body of the `Each` callback over `li`: the record to append for
      one text, if any. */
  method ReadFallback(text: string) returns (shop: Option<NetCafe>)
    ensures shop == FallbackShop(text)
  {
    if Contains(text, "店") || Contains(text, "快活") {
      var lines := Split(text, '\n');
      var fields := ClassifyLines(lines);
      var name := fields.name;
      if name != "" {
        if !HasPrefix(name, "快活CLUB") {
          name := Brand + name;
        }
        return Some(NetCafe(name, fields.address, AllDay, fields.phone, RootURL));
      }
    }
    return None;
  }

  /** The fallback pass: every `li` text in document order, appending what
      the callback yields. */
  method ExtractFallback(texts: seq<string>) returns (cafes: seq<NetCafe>)
    ensures cafes == FilterMap(texts, FallbackShop)
  {
    cafes := [];
    for i := 0 to |texts|
      invariant cafes == FilterMap(texts[..i], FallbackShop)
    {
      FilterMapStep(texts, i, FallbackShop);
      var shop := ReadFallback(texts[i]);
      if shop.Some? {
        cafes := cafes + [shop.value];
      }
    }
    assert texts[..|texts|] == texts;
  }

  // ---------------------------------------------------------------------
  // The whole extractor

  /** What `ScrapeKaikatsuClub` returns for a page. */
  function KaikatsuClub(page: Page<Listing>): (r: Result<seq<NetCafe>>)
    ensures r.Err? <==> Load(page).Err?
    ensures r.Err? ==> r.error == Load(page).error
    ensures r.Ok? ==> |r.value| <= |page.body.doc.shopListItems| || |r.value| <= |page.body.doc.listItems|
  {
    match Load(page)
    case Err(e) => Err(e)
    case Ok(doc) =>
      var primary := FilterMap(doc.shopListItems, PrimaryShop);
      if |primary| == 0 then Ok(FilterMap(doc.listItems, FallbackShop)) else Ok(primary)
  }

  /** `ScrapeKaikatsuClub`: load the page, run the primary pass, and fall back
      to the `li` pass when the primary pass found nothing. */
  method ScrapeKaikatsuClub(page: Page<Listing>) returns (r: Result<seq<NetCafe>>)
    ensures r == KaikatsuClub(page)
  {
    var loaded := Load(page);
    if loaded.Err? {
      return Err(loaded.error);
    }
    var doc := loaded.value;
    var cafes := ExtractPrimary(doc.shopListItems);
    if |cafes| == 0 {
      cafes := ExtractFallback(doc.listItems);
    }
    return Ok(cafes);
  }

  /** The fallback runs exactly when no container has a non-blank name; a
      load failure is passed on unchanged. */
  lemma FallbackGate(page: Page<Listing>)
    ensures Load(page).Err? ==> KaikatsuClub(page) == Err(Load(page).error)
    ensures Load(page).Ok? ==>
      var doc := Load(page).value;
      && ((forall k :: 0 <= k < |doc.shopListItems| ==>
             FirstNonBlank(doc.shopListItems[k].shopName, doc.shopListItems[k].h3) == "")
          ==> KaikatsuClub(page) == Ok(FilterMap(doc.listItems, FallbackShop)))
      && ((exists k :: 0 <= k < |doc.shopListItems| &&
             FirstNonBlank(doc.shopListItems[k].shopName, doc.shopListItems[k].h3) != "")
          ==> KaikatsuClub(page) == Ok(FilterMap(doc.shopListItems, PrimaryShop)))
  {
    if Load(page).Ok? {
      FilterMapEmpty(Load(page).value.shopListItems, PrimaryShop);
    }
  }

  /** Every record the extractor returns has a name carrying the brand. */
  lemma KaikatsuNamed(page: Page<Listing>, cafe: NetCafe)
    requires KaikatsuClub(page).Ok? && cafe in KaikatsuClub(page).value
    ensures cafe.name != "" && HasPrefix(cafe.name, "快活CLUB")
  {
    var doc := Load(page).value;
    if |FilterMap(doc.shopListItems, PrimaryShop)| == 0 {
      FilterMapMembers(doc.listItems, FallbackShop, cafe);
    } else {
      PrimaryRecords(doc.shopListItems, cafe);
    }
  }

  /** A loaded page whose containers all have blank names and none of whose
      `li` lines names a shop yields no records and no error. */
  lemma EmptyListing(page: Page<Listing>)
    requires Load(page).Ok?
    requires forall k :: 0 <= k < |page.body.doc.shopListItems| ==>
      Trim(page.body.doc.shopListItems[k].shopName) == "" && Trim(page.body.doc.shopListItems[k].h3) == ""
    requires forall k, n :: 0 <= k < |page.body.doc.listItems| && 0 <= n < |Split(page.body.doc.listItems[k], '\n')| ==>
      !IsShopLine(Trim(Split(page.body.doc.listItems[k], '\n')[n]))
    ensures KaikatsuClub(page) == Ok([])
  {
    var doc := page.body.doc;
    FilterMapEmpty(doc.shopListItems, PrimaryShop);
    forall k | 0 <= k < |doc.listItems|
      ensures FallbackShop(doc.listItems[k]).None?
    {
      FallbackShopFields(doc.listItems[k]);
    }
    FilterMapEmpty(doc.listItems, FallbackShop);
  }

  /** The first `li` of the fallback fixture in the tests: a blank line, the
      indented lines holding a branded shop name, an address and a phone
      number, and the indentation before the closing tag. */
  const FixtureText: string := Join(FixtureLineList, '\n')

  const FixtureName: string := "快活CLUB 新宿南口店"
  const FixtureAddress: string := "東京都新宿区新宿4-1-1"
  const FixturePhone: string := "03-1234-5678"
  const FixtureLineList: seq<string> :=
    ["", "\t\t\t\t" + FixtureName, "\t\t\t\t" + FixtureAddress, "\t\t\t\t" + FixturePhone, "\t\t\t"]

  /** The fixture's lines, as `strings.Split` cuts them. */
  lemma FixtureLines()
    ensures Split(FixtureText, '\n') == FixtureLineList
  {
    var l := FixtureLineList;
    assert forall k :: 0 <= k < |l| ==> '\n' !in l[k];
    SplitJoin(l, '\n');
  }

  /** The fields after one more line are one more turn of the loop. */
  lemma ClassifySnoc(lines: seq<string>, line: string)
    ensures Classify(lines + [line]) == ClassifyLine(Classify(lines), line)
  {
    assert (lines + [line])[..|lines|] == lines;
  }

  /** The indented shop line fills the empty name. */
  lemma FixtureNameLine()
    ensures ClassifyLine(LineFields("", "", ""), FixtureLineList[1]) == LineFields(FixtureName, "", "")
  {
    TrimExact(FixtureLineList[1], FixtureName, 4);
    assert FixtureName[11] == '店';
  }

  /** The indented address line, holding 区 but not 店, fills the empty address. */
  lemma FixtureAddressLine()
    ensures ClassifyLine(LineFields(FixtureName, "", ""), FixtureLineList[2])
      == LineFields(FixtureName, FixtureAddress, "")
  {
    TrimExact(FixtureLineList[2], FixtureAddress, 4);
    assert FixtureAddress[5] == '区';
  }

  /** The indented phone line, holding neither 店 nor 区 nor 市, matches the
      phone pattern. */
  lemma FixturePhoneLine()
    ensures ClassifyLine(LineFields(FixtureName, FixtureAddress, ""), FixtureLineList[3])
      == LineFields(FixtureName, FixtureAddress, FixturePhone)
  {
    var fields := LineFields(FixtureName, FixtureAddress, "");
    TrimExact(FixtureLineList[3], FixturePhone, 4);
    assert Trim(FixtureLineList[3]) == FixturePhone;
    FixturePhoneMatches();
    assert fields.name != "" && fields.address != "";
  }

  /** The fixture's phone number matches the phone pattern. */
  lemma FixturePhoneMatches()
    ensures ContainsPhone(FixturePhone)
  {
    assert DigitRun(FixturePhone, 0, 2);
    assert DigitRun(FixturePhone, 3, 4);
    assert DigitRun(FixturePhone, 8, 4);
    assert PhoneShapeAt(FixturePhone, 0, 2, 4);
    assert PhoneAt(FixturePhone, 0);
  }

  /** The fixture's lines classify into name, address and phone in order;
      the blank lines around them change nothing. */
  lemma FixtureFields()
    ensures Classify(FixtureLineList) == LineFields(FixtureName, FixtureAddress, FixturePhone)
  {
    var l := FixtureLineList;
    FixtureThroughPhone();
    TrimExact(l[4], "", 0);
    ClassifySnoc(l[..4], l[4]);
    assert l[..4] + [l[4]] == l;
  }

  /** After the leading blank line and the name line. */
  lemma FixtureThroughName()
    ensures Classify(FixtureLineList[..2]) == LineFields(FixtureName, "", "")
  {
    var l := FixtureLineList;
    TrimExact(l[0], "", 0);
    ClassifySnoc([], l[0]);
    assert [l[0]] == l[..1];
    ClassifySnoc(l[..1], l[1]);
    assert l[..1] + [l[1]] == l[..2];
    FixtureNameLine();
  }

  /** After the address line. */
  lemma FixtureThroughAddress()
    ensures Classify(FixtureLineList[..3]) == LineFields(FixtureName, FixtureAddress, "")
  {
    var l := FixtureLineList;
    FixtureThroughName();
    ClassifySnoc(l[..2], l[2]);
    assert l[..2] + [l[2]] == l[..3];
    FixtureAddressLine();
  }

  /** After the phone line. */
  lemma FixtureThroughPhone()
    ensures Classify(FixtureLineList[..4]) == LineFields(FixtureName, FixtureAddress, FixturePhone)
  {
    var l := FixtureLineList;
    FixtureThroughAddress();
    ClassifySnoc(l[..3], l[3]);
    assert l[..3] + [l[3]] == l[..4];
    FixturePhoneLine();
  }

  /** The fixture's first `li` gives a record with exactly its three lines as
      fields, without a second brand prefix. */
  lemma FallbackFixture()
    ensures FallbackShop(FixtureText) == Some(NetCafe(FixtureName, FixtureAddress, AllDay, FixturePhone, RootURL))
  {
    FixtureLines();
    FixtureFields();
    TrimExact(FixtureLineList[1], FixtureName, 4);
    assert FixtureName[11] == '店';
    ShopLineInText(FixtureText, 1);
    assert HasPrefix(FixtureName, "快活CLUB");
  }
}
