/** The Jiqoo (自遊空間) extractor, `ScrapeJiqoo` in scraper.go: every
    `.shop-item, .store-item` container with a non-blank name becomes a
    record whose name carries the brand. */
module Jiqoo {
  import opened Text
  import opened NetCafes
  import opened Extraction

  const Origin: string := "https://jiqoo.jp"
  const Brand: string := "自遊空間"

  /** What the selectors report for one container: the text of all elements
      matching each selector union ("" when none matches) and the `href` of
      its first link ("" when there is none). */
  datatype ShopItem = ShopItem(name: string, address: string, phone: string, hours: string, href: string)

  /** The parsed listing page: its containers in document order. */
  datatype Listing = Listing(shopItems: seq<ShopItem>)

  /** The record one container yields, if any. */
  function Shop(item: ShopItem): (shop: Option<NetCafe>)
    ensures shop.Some? <==> Trim(item.name) != ""
    ensures shop.Some? ==> shop.value == NetCafe(AddBrand(Brand, Trim(item.name)), Trim(item.address),
                                                 Hours(item.hours), Trim(item.phone), Absolutize(Origin, item.href))
  {
    var name := Trim(item.name);
    if name == "" then None
    else Some(NetCafe(AddBrand(Brand, name), Trim(item.address), Hours(item.hours), Trim(item.phone),
                      Absolutize(Origin, item.href)))
  }

  /** The body of the `Each` callback: the record to append for one
      container, if any. */
  method ReadShop(s: ShopItem) returns (shop: Option<NetCafe>)
    ensures shop == Shop(s)
  {
    var name := Trim(s.name);
    var address := Trim(s.address);
    var phone := Trim(s.phone);
    var hours := AllDay;
    if s.hours != "" {
      hours := Trim(s.hours);
    }
    var shopURL := s.href;
    if !HasPrefix(shopURL, "http") && shopURL != "" {
      shopURL := Origin + shopURL;
    }
    if name != "" {
      if !Contains(name, Brand) {
        name := Brand + " " + name;
      }
      return Some(NetCafe(name, address, hours, phone, shopURL));
    }
    return None;
  }

  /** Every container in document order, appending what the callback yields. */
  method ExtractShops(items: seq<ShopItem>) returns (cafes: seq<NetCafe>)
    ensures cafes == FilterMap(items, Shop)
  {
    cafes := [];
    for i := 0 to |items|
      invariant cafes == FilterMap(items[..i], Shop)
    {
      FilterMapStep(items, i, Shop);
      var shop := ReadShop(items[i]);
      if shop.Some? {
        cafes := cafes + [shop.value];
      }
    }
    assert items[..|items|] == items;
  }

  /** What `ScrapeJiqoo` returns for a page. */
  function JiqooShops(page: Page<Listing>): (r: Result<seq<NetCafe>>)
    ensures r.Err? <==> Load(page).Err?
    ensures r.Err? ==> r.error == Load(page).error
    ensures r.Ok? ==> |r.value| <= |page.body.doc.shopItems|
  {
    match Load(page)
    case Err(e) => Err(e)
    case Ok(doc) => Ok(FilterMap(doc.shopItems, Shop))
  }

  /** `ScrapeJiqoo`: load the page and run every container through Shop. */
  method ScrapeJiqoo(page: Page<Listing>) returns (r: Result<seq<NetCafe>>)
    ensures r == JiqooShops(page)
  {
    var loaded := Load(page);
    if loaded.Err? {
      return Err(loaded.error);
    }
    var cafes := ExtractShops(loaded.value.shopItems);
    return Ok(cafes);
  }

  /** The records are exactly the branded records of the containers with a
      non-blank name, and every one of them has a name containing the brand
      and a URL that is absolute or empty. */
  lemma JiqooRecords(page: Page<Listing>, cafe: NetCafe)
    requires JiqooShops(page).Ok?
    ensures cafe in JiqooShops(page).value <==>
      exists k :: 0 <= k < |page.body.doc.shopItems| && Shop(page.body.doc.shopItems[k]) == Some(cafe)
    ensures cafe in JiqooShops(page).value ==>
      Contains(cafe.name, Brand) && cafe.name != "" && (cafe.url == "" || HasPrefix(cafe.url, "http"))
  {
    var items := page.body.doc.shopItems;
    FilterMapMembers(items, Shop, cafe);
    if cafe in JiqooShops(page).value {
      var k :| 0 <= k < |items| && Shop(items[k]) == Some(cafe);
      AbsolutizeTwice(Origin, items[k].href);
    }
  }

  /** A page whose containers all have blank names yields no records, and no
      error either. */
  lemma JiqooNoNames(page: Page<Listing>)
    requires Load(page).Ok?
    requires forall k :: 0 <= k < |page.body.doc.shopItems| ==> Trim(page.body.doc.shopItems[k].name) == ""
    ensures JiqooShops(page) == Ok([])
  {
    FilterMapEmpty(page.body.doc.shopItems, Shop);
  }
}
