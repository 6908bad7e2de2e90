/** The Manboo (マンボー) extractor, `ScrapeManboo` in scraper.go: a broad
    container selector, a name taken from the first name element or else from
    the first text line naming a shop, and a record only for Tokyo texts. */
module Manboo {
  import opened Text
  import opened NetCafes
  import opened Extraction

  const Brand: string := "マンボー"
  const SiteURL: string := "https://www.manboo.co.jp/"

  /** One `.shop-list-item, .store-item, li` container: its whole text and the
      text of the first element matching each field selector, if one does. */
  datatype ListItem = ListItem(
    text: string,
    nameElem: Option<string>,
    addressElem: Option<string>,
    phoneElem: Option<string>)

  /** The parsed listing page: its containers in document order. */
  datatype Listing = Listing(items: seq<ListItem>)

  /** The trimmed text of an element found by `First()`, or "" when the
      selection is empty. */
  function ElemText(elem: Option<string>): (text: string)
    ensures elem.None? ==> text == ""
    ensures elem.Some? ==> text == Trim(elem.value)
  {
    if elem.Some? then Trim(elem.value) else ""
  }

  /** The name before branding: the name element's text, or, when that is
      blank and the text contains 店, the first trimmed line containing 店. */
  function ItemName(item: ListItem): (name: string)
    ensures ElemText(item.nameElem) != "" ==> name == ElemText(item.nameElem)
    ensures ElemText(item.nameElem) == "" ==> name == "" || IsShopLine(name)
  {
    var fromElem := ElemText(item.nameElem);
    if fromElem == "" && Contains(item.text, "店") then
      var name := FirstShopLine(Split(item.text, '\n'));
      assert name != "" ==> IsShopLine(name) by {
        if name != "" {
          var lines := Split(item.text, '\n');
          var k :| 0 <= k < |lines| && IsShopLine(Trim(lines[k]));
          var first := FirstShopLineIndex(lines, k);
          FirstShopLineIsFirst(lines, first);
        }
      }
      name
    else fromElem
  }

  /** Some line names a shop, so there is a first one. */
  lemma {:induction false} FirstShopLineIndex(lines: seq<string>, k: int) returns (first: int)
    requires 0 <= k < |lines| && IsShopLine(Trim(lines[k]))
    ensures FirstShopLineAt(lines, first)
    decreases k
  {
    if exists j :: 0 <= j < k && IsShopLine(Trim(lines[j])) {
      var j :| 0 <= j < k && IsShopLine(Trim(lines[j]));
      first := FirstShopLineIndex(lines, j);
    } else {
      first := k;
    }
  }

  /** The record one container yields, if any. */
  function Shop(item: ListItem): (shop: Option<NetCafe>)
    ensures shop.Some? ==> Contains(item.text, "東京") && shop.value.name != ""
    ensures shop.Some? ==> shop.value.hours == AllDay && shop.value.url == SiteURL
  {
    if !(Contains(item.text, "東京") || Contains(item.text, "店")) then None
    else
      var name := ItemName(item);
      if name != "" && Contains(item.text, "東京") then
        Some(NetCafe(AddBrand(Brand, name), ElemText(item.addressElem), AllDay,
                     ElemText(item.phoneElem), SiteURL))
      else None
  }

  /** The line loop: it has no `break`, but once the name is set the
      `name == ""` test keeps the first line containing 店. */
  method FirstShopLineOf(lines: seq<string>) returns (name: string)
    ensures name == FirstShopLine(lines)
  {
    name := "";
    for i := 0 to |lines|
      invariant name == FirstShopLine(lines[..i])
    {
      assert lines[..i + 1][..i] == lines[..i];
      var line := Trim(lines[i]);
      ShopLineContains(line);
      if Contains(line, "店") && name == "" {
        name := line;
      }
    }
    assert lines[..|lines|] == lines;
  }

  /** The body of the `Each` callback: the record to append for one
      container, if any. */
  method ReadShop(s: ListItem) returns (shop: Option<NetCafe>)
    ensures shop == Shop(s)
  {
    var text := s.text;
    if Contains(text, "東京") || Contains(text, "店") {
      var name, address, phone := "", "", "";
      if s.nameElem.Some? {
        name := Trim(s.nameElem.value);
      }
      if s.addressElem.Some? {
        address := Trim(s.addressElem.value);
      }
      if s.phoneElem.Some? {
        phone := Trim(s.phoneElem.value);
      }
      if name == "" && Contains(text, "店") {
        var lines := Split(text, '\n');
        name := FirstShopLineOf(lines);
      }
      if name != "" && Contains(text, "東京") {
        if !Contains(name, Brand) {
          name := Brand + " " + name;
        }
        return Some(NetCafe(name, address, AllDay, phone, SiteURL));
      }
    }
    return None;
  }

  /** Every container in document order, appending what the callback yields. */
  method ExtractShops(items: seq<ListItem>) returns (cafes: seq<NetCafe>)
    ensures cafes == FilterMap(items, Shop)
  {
    cafes := [];
    for i := 0 to |items|
      invariant cafes == FilterMap(items[..i], Shop)
    {
      FilterMapStep(items, i, Shop);
      var shop := ReadShop(items[i]);
      if shop.Some? {
        cafes := cafes + [shop.value];
      }
    }
    assert items[..|items|] == items;
  }

  /** What `ScrapeManboo` returns for a page. */
  function ManbooShops(page: Page<Listing>): (r: Result<seq<NetCafe>>)
    ensures r.Err? <==> Load(page).Err?
    ensures r.Err? ==> r.error == Load(page).error
    ensures r.Ok? ==> |r.value| <= |page.body.doc.items|
  {
    match Load(page)
    case Err(e) => Err(e)
    case Ok(doc) => Ok(FilterMap(doc.items, Shop))
  }

  /** `ScrapeManboo`: load the page and run every container through Shop. */
  method ScrapeManboo(page: Page<Listing>) returns (r: Result<seq<NetCafe>>)
    ensures r == ManbooShops(page)
  {
    var loaded := Load(page);
    if loaded.Err? {
      return Err(loaded.error);
    }
    var cafes := ExtractShops(loaded.value.items);
    return Ok(cafes);
  }

  /** A container yields a record exactly when its text mentions 東京 and it
      has a name: a non-blank name element, or a text line containing 店.
      The outer test on 店 lets non-Tokyo shops through only for them to be
      dropped at the end. */
  lemma ShopIff(item: ListItem)
    ensures Shop(item).Some? <==>
      Contains(item.text, "東京") &&
      (ElemText(item.nameElem) != "" ||
       exists k :: 0 <= k < |Split(item.text, '\n')| && IsShopLine(Trim(Split(item.text, '\n')[k])))
  {
    var lines := Split(item.text, '\n');
    if exists k :: 0 <= k < |lines| && IsShopLine(Trim(lines[k])) {
      var k :| 0 <= k < |lines| && IsShopLine(Trim(lines[k]));
      ShopLineInText(item.text, k);
    }
  }

  /** Every record carries the brand, the default hours and the site's URL. */
  lemma ShopFields(item: ListItem)
    requires Shop(item).Some?
    ensures Contains(Shop(item).value.name, Brand)
    ensures Shop(item).value.hours == AllDay && Shop(item).value.url == SiteURL
    ensures Shop(item).value.location == ElemText(item.addressElem)
    ensures Shop(item).value.phone == ElemText(item.phoneElem)
  {
  }

  /** A name found by the line fallback is a line naming a shop, so every
      record's name holds 店 or came from the name element. */
  lemma ShopName(item: ListItem)
    requires Shop(item).Some?
    ensures ElemText(item.nameElem) != "" ==> Shop(item).value.name == AddBrand(Brand, ElemText(item.nameElem))
    ensures ElemText(item.nameElem) == "" ==> IsShopLine(ItemName(item))
  {
  }

  /** Without a name element the name is the first trimmed line holding 店. */
  lemma ItemNameFirst(item: ListItem, k: int)
    requires ElemText(item.nameElem) == ""
    requires FirstShopLineAt(Split(item.text, '\n'), k)
    ensures ItemName(item) == Trim(Split(item.text, '\n')[k])
  {
    ShopLineInText(item.text, k);
    FirstShopLineIsFirst(Split(item.text, '\n'), k);
  }

  /** A Tokyo text without a name element yields the record named by its
      first line holding 店, branded. */
  lemma ShopFirstLine(item: ListItem, k: int)
    requires ElemText(item.nameElem) == "" && Contains(item.text, "東京")
    requires FirstShopLineAt(Split(item.text, '\n'), k)
    ensures Shop(item) == Some(NetCafe(AddBrand(Brand, Trim(Split(item.text, '\n')[k])),
                                       ElemText(item.addressElem), AllDay, ElemText(item.phoneElem), SiteURL))
  {
    ItemNameFirst(item, k);
  }

  /** The records are exactly the records of the containers. */
  lemma ManbooRecords(page: Page<Listing>, cafe: NetCafe)
    requires ManbooShops(page).Ok?
    ensures cafe in ManbooShops(page).value <==>
      exists k :: 0 <= k < |page.body.doc.items| && Shop(page.body.doc.items[k]) == Some(cafe)
    ensures cafe in ManbooShops(page).value ==>
      cafe.name != "" && Contains(cafe.name, Brand) && cafe.hours == AllDay && cafe.url == SiteURL
  {
    FilterMapMembers(page.body.doc.items, Shop, cafe);
    assert |Brand| > 0;
  }

  /** A loaded page none of whose container texts mentions 東京 yields no
      records and no error. */
  lemma NoTokyo(page: Page<Listing>)
    requires Load(page).Ok?
    requires forall k :: 0 <= k < |page.body.doc.items| ==> !Contains(page.body.doc.items[k].text, "東京")
    ensures ManbooShops(page) == Ok([])
  {
    FilterMapEmpty(page.body.doc.items, Shop);
  }

  /** A shop outside Tokyo is never listed, even when the text names a shop. */
  lemma OutsideTokyo(item: ListItem)
    requires !Contains(item.text, "東京")
    ensures Shop(item) == None
  {
  }
}
