/** `ScrapeAll` in scraper.go: run the three extractors in order, gather the
    records of those that succeed and one labelled message for each that
    fails, and never fail as a whole. */
module Scraping {
  import opened Text
  import opened NetCafes
  import opened Extraction
  import Kaikatsu
  import Jiqoo
  import Manboo

  /** The records a source contributes: all of them on success, none on failure. */
  function Records(r: Result<seq<NetCafe>>): (cafes: seq<NetCafe>)
    ensures r.Err? ==> cafes == []
    ensures r.Ok? ==> cafes == r.value
  {
    if r.Ok? then r.value else []
  }

  /** The message a source contributes: `site: error` on failure, none on success. */
  function Report(site: string, r: Result<seq<NetCafe>>): (messages: seq<string>)
    ensures r.Ok? ==> messages == []
    ensures r.Err? ==> messages == [site + ": " + r.error]
  {
    if r.Err? then [site + ": " + r.error] else []
  }

  /** The records and messages of three source outcomes, in source order. */
  function Combine(k: Result<seq<NetCafe>>, j: Result<seq<NetCafe>>, m: Result<seq<NetCafe>>):
    (combined: (seq<NetCafe>, seq<string>))
    ensures combined.1 == [] <==> k.Ok? && j.Ok? && m.Ok?
    ensures k.Ok? && j.Ok? && m.Ok? ==> combined.0 == k.value + j.value + m.value
  {
    (Records(k) + Records(j) + Records(m),
     Report("快活CLUB", k) + Report("自遊空間", j) + Report("マンボー", m))
  }

  /** `ScrapeAll` over the three listing pages.  The outcome is always a
      success; `failures` are the messages the source prints. */
  method ScrapeAll(kaikatsuPage: Page<Kaikatsu.Listing>, jiqooPage: Page<Jiqoo.Listing>,
                   manbooPage: Page<Manboo.Listing>)
    returns (result: Result<seq<NetCafe>>, failures: seq<string>)
    ensures result.Ok?
    ensures result.value == Combine(Kaikatsu.KaikatsuClub(kaikatsuPage), Jiqoo.JiqooShops(jiqooPage),
                                    Manboo.ManbooShops(manbooPage)).0
    ensures failures == Combine(Kaikatsu.KaikatsuClub(kaikatsuPage), Jiqoo.JiqooShops(jiqooPage),
                                Manboo.ManbooShops(manbooPage)).1
  {
    var all: seq<NetCafe> := [];
    failures := [];
    var kaikatsu := Kaikatsu.ScrapeKaikatsuClub(kaikatsuPage);
    if kaikatsu.Err? {
      failures := failures + ["快活CLUB" + ": " + kaikatsu.error];
    } else {
      all := all + kaikatsu.value;
    }
    assert all == Records(kaikatsu) && failures == Report("快活CLUB", kaikatsu);
    var jiqoo := Jiqoo.ScrapeJiqoo(jiqooPage);
    if jiqoo.Err? {
      failures := failures + ["自遊空間" + ": " + jiqoo.error];
    } else {
      all := all + jiqoo.value;
    }
    assert all == Records(kaikatsu) + Records(jiqoo);
    assert failures == Report("快活CLUB", kaikatsu) + Report("自遊空間", jiqoo);
    var manboo := Manboo.ScrapeManboo(manbooPage);
    if manboo.Err? {
      failures := failures + ["マンボー" + ": " + manboo.error];
    } else {
      all := all + manboo.value;
    }
    assert all == Records(kaikatsu) + Records(jiqoo) + Records(manboo);
    assert failures == Report("快活CLUB", kaikatsu) + Report("自遊空間", jiqoo) + Report("マンボー", manboo);
    return Ok(all), failures;
  }

  /** A record is combined exactly when one of the successful sources
      returned it, and there is one message per failed source. */
  lemma CombineMembers(k: Result<seq<NetCafe>>, j: Result<seq<NetCafe>>, m: Result<seq<NetCafe>>,
                       cafe: NetCafe)
    ensures cafe in Combine(k, j, m).0 <==>
      (k.Ok? && cafe in k.value) || (j.Ok? && cafe in j.value) || (m.Ok? && cafe in m.value)
    ensures |Combine(k, j, m).1| == (if k.Err? then 1 else 0) + (if j.Err? then 1 else 0) + (if m.Err? then 1 else 0)
    ensures |Combine(k, j, m).0| == |Records(k)| + |Records(j)| + |Records(m)|
  {
  }

  /** A failing source costs only its own records: the others are combined
      as if it had returned nothing. */
  lemma FailureIsolated(k: Result<seq<NetCafe>>, j: Result<seq<NetCafe>>, m: Result<seq<NetCafe>>)
    requires j.Err?
    ensures Combine(k, j, m).0 == Combine(k, Ok([]), m).0
    ensures Combine(k, j, m).1 == Report("快活CLUB", k) + ["自遊空間" + ": " + j.error] + Report("マンボー", m)
  {
  }

  /** When every page fails to load there are no records and three
      messages, one per site in order, and the whole call still succeeds. */
  lemma AllFail(kaikatsuPage: Page<Kaikatsu.Listing>, jiqooPage: Page<Jiqoo.Listing>,
                manbooPage: Page<Manboo.Listing>)
    requires kaikatsuPage.Unreachable? && jiqooPage.Unreachable? && manbooPage.Unreachable?
    ensures var (cafes, failures) := Combine(Kaikatsu.KaikatsuClub(kaikatsuPage), Jiqoo.JiqooShops(jiqooPage),
                                             Manboo.ManbooShops(manbooPage));
      && cafes == []
      && |failures| == 3
      && failures[0] == "快活CLUB" + ": failed to fetch page: " + kaikatsuPage.cause
      && failures[1] == "自遊空間" + ": failed to fetch page: " + jiqooPage.cause
      && failures[2] == "マンボー" + ": failed to fetch page: " + manbooPage.cause
  {
    var k := Kaikatsu.KaikatsuClub(kaikatsuPage);
    var j := Jiqoo.JiqooShops(jiqooPage);
    var m := Manboo.ManbooShops(manbooPage);
    FetchFailure("快活CLUB", k, kaikatsuPage.cause);
    FetchFailure("自遊空間", j, jiqooPage.cause);
    FetchFailure("マンボー", m, manbooPage.cause);
  }

  /** A source whose page could not be fetched reports the transport error
      under its label. */
  lemma FetchFailure(site: string, r: Result<seq<NetCafe>>, cause: string)
    requires r == Err("failed to fetch page: " + cause)
    ensures Records(r) == []
    ensures Report(site, r) == [site + ": failed to fetch page: " + cause]
  {
    // regroup the concatenation, then merge the two literals
    assert site + ": " + ("failed to fetch page: " + cause) == site + (": " + "failed to fetch page: ") + cause;
    assert ": " + "failed to fetch page: " == ": failed to fetch page: ";
  }

  /** Every combined record has a non-empty name carrying its own chain's
      brand: Kaikatsu names start with 快活CLUB, Jiqoo and Manboo names contain
      their brand. */
  lemma CombinedNamed(kaikatsuPage: Page<Kaikatsu.Listing>, jiqooPage: Page<Jiqoo.Listing>,
                      manbooPage: Page<Manboo.Listing>, cafe: NetCafe)
    requires cafe in Combine(Kaikatsu.KaikatsuClub(kaikatsuPage), Jiqoo.JiqooShops(jiqooPage),
                             Manboo.ManbooShops(manbooPage)).0
    ensures cafe.name != ""
    ensures Contains(cafe.name, "快活CLUB") || Contains(cafe.name, Jiqoo.Brand) || Contains(cafe.name, Manboo.Brand)
    ensures cafe in Records(Kaikatsu.KaikatsuClub(kaikatsuPage)) ==> HasPrefix(cafe.name, "快活CLUB")
    ensures cafe in Records(Jiqoo.JiqooShops(jiqooPage)) ==> Contains(cafe.name, Jiqoo.Brand)
    ensures cafe in Records(Manboo.ManbooShops(manbooPage)) ==> Contains(cafe.name, Manboo.Brand)
  {
    var k := Kaikatsu.KaikatsuClub(kaikatsuPage);
    var j := Jiqoo.JiqooShops(jiqooPage);
    var m := Manboo.ManbooShops(manbooPage);
    CombineMembers(k, j, m, cafe);
    if k.Ok? && cafe in k.value {
      Kaikatsu.KaikatsuNamed(kaikatsuPage, cafe);
      ContainsPrefix("快活CLUB", cafe.name[|"快活CLUB"|..]);
      assert "快活CLUB" + cafe.name[|"快活CLUB"|..] == cafe.name;
    }
    if j.Ok? && cafe in j.value {
      Jiqoo.JiqooRecords(jiqooPage, cafe);
    }
    if m.Ok? && cafe in m.value {
      Manboo.ManbooRecords(manbooPage, cafe);
      assert |Manboo.Brand| > 0;
    }
  }
}
