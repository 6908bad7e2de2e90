/** The record every source is turned into, the built-in sample data, and the
    in-memory store that lists and searches records (main.go). */
module NetCafes {
  import opened Text

  /** One internet cafe: display name, address, opening hours, phone, page URL. */
  datatype NetCafe = NetCafe(name: string, location: string, hours: string, phone: string, url: string)

  /** The five built-in sample stores, one constant per record. */
  const KaikatsuShinjuku := NetCafe("快活CLUB 新宿西口店", "東京都新宿区西新宿1-12-9", "24時間営業",
                                    "03-5321-6166", "https://www.kaikatsu.jp/")
  const JiqooIkebukuro := NetCafe("自遊空間 池袋西口ROSA店", "東京都豊島区西池袋1-37-12", "24時間営業",
                                  "03-5391-7778", "https://jiqoo.jp/")
  const DiceAkihabara := NetCafe("DiCE 秋葉原店", "東京都千代田区外神田1-11-5", "24時間営業",
                                 "03-5298-1281", "https://www.diskcity.co.jp/")
  const ManbooShibuya := NetCafe("マンボー 渋谷宮益坂店", "東京都渋谷区渋谷1-12-1", "24時間営業",
                                 "03-5766-6010", "https://manboo.co.jp/")
  const AprecioKabukicho := NetCafe("アプレシオ 新宿歌舞伎町店", "東京都新宿区歌舞伎町1-20-1", "24時間営業",
                                    "03-5155-4486", "https://www.aprecio.co.jp/")

  /** The fixed list the service starts from when nothing is scraped. */
  function SampleStores(): (stores: seq<NetCafe>)
    ensures |stores| == 5
    ensures stores[0] == NetCafe("快活CLUB 新宿西口店", "東京都新宿区西新宿1-12-9", "24時間営業",
                                 "03-5321-6166", "https://www.kaikatsu.jp/")
    ensures forall k :: 0 <= k < |stores| ==> stores[k].name != "" && stores[k].hours == "24時間営業"
  {
    [KaikatsuShinjuku, JiqooIkebukuro, DiceAkihabara, ManbooShibuya, AprecioKabukicho]
  }

  /** A cafe matches an already lower-cased needle when its lower-cased name
      or lower-cased location contains it. */
  predicate Matches(cafe: NetCafe, needle: string) {
    Contains(ToLower(cafe.name), needle) || Contains(ToLower(cafe.location), needle)
  }

  /** The stores a keyword search returns: those matching the lower-cased
      keyword, in their original order. */
  function Search(stores: seq<NetCafe>, keyword: string): (found: seq<NetCafe>)
    ensures |found| <= |stores|
  {
    if stores == [] then []
    else
      var last := stores[|stores| - 1];
      Search(stores[..|stores| - 1], keyword) + Kept(last, ToLower(keyword))
  }

  /** The one-store piece of a search: the store if it matches, else nothing. */
  function Kept(cafe: NetCafe, needle: string): seq<NetCafe> {
    if Matches(cafe, needle) then [cafe] else []
  }

  /** The search store: a list of records fixed when the service is built. */
  class NetCafeService {
    var stores: seq<NetCafe>

    /** `NewNetCafeService`: a service over the sample stores. */
    constructor ()
      ensures stores == SampleStores()
    {
      stores := SampleStores();
    }

    /** A service over a given list, as the command line builds it from scraped records. */
    constructor WithStores(stores: seq<NetCafe>)
      ensures this.stores == stores
    {
      this.stores := stores;
    }

    /** `SearchByName`: case-insensitive substring search over names and locations. */
    method SearchByName(keyword: string) returns (results: seq<NetCafe>)
      ensures results == Search(stores, keyword)
    {
      results := [];
      var needle := ToLower(keyword);
      for i := 0 to |stores|
        invariant results == Search(stores[..i], keyword)
      {
        var cafe := stores[i];
        if Contains(ToLower(cafe.name), needle) || Contains(ToLower(cafe.location), needle) {
          results := results + [cafe];
        }
        assert stores[..i + 1][..i] == stores[..i];
      }
      assert stores[..|stores|] == stores;
    }

    /** `GetAll`: the stored list itself. */
    function GetAll(): (all: seq<NetCafe>)
      reads this
      ensures all == stores
    {
      stores
    }
  }

  /** Search distributes over concatenation, so it keeps the stores' order. */
  lemma {:induction false} SearchAppend(a: seq<NetCafe>, b: seq<NetCafe>, keyword: string)
    ensures Search(a + b, keyword) == Search(a, keyword) + Search(b, keyword)
    decreases |b|
  {
    if b != [] {
      var b' := b[..|b| - 1];
      assert (a + b)[..|a + b| - 1] == a + b';
      SearchAppend(a, b', keyword);
    } else {
      assert a + b == a;
    }
  }

  /** A single store is returned exactly when it matches. */
  lemma SearchOne(cafe: NetCafe, keyword: string)
    ensures Search([cafe], keyword) == Kept(cafe, ToLower(keyword))
  {
    assert [cafe][..0] == [];
  }

  /** A store is in the result exactly when it is among the stores and matches. */
  lemma {:induction false} SearchMembers(stores: seq<NetCafe>, keyword: string, cafe: NetCafe)
    ensures cafe in Search(stores, keyword) <==> cafe in stores && Matches(cafe, ToLower(keyword))
  {
    if stores != [] {
      var init := stores[..|stores| - 1];
      SearchMembers(init, keyword, cafe);
      assert stores == init + [stores[|stores| - 1]];
    }
  }

  /** An empty keyword matches every store, so the search returns them all. */
  lemma {:induction false} SearchEmptyKeyword(stores: seq<NetCafe>)
    ensures Search(stores, "") == stores
  {
    if stores != [] {
      var init := stores[..|stores| - 1];
      SearchEmptyKeyword(init);
      ContainsEmpty(ToLower(stores[|stores| - 1].name));
      assert ToLower("") == "";
      assert stores == init + [stores[|stores| - 1]];
    }
  }

  /** The keyword's letter case does not matter. */
  lemma {:induction false} SearchIgnoresCase(stores: seq<NetCafe>, keyword: string)
    ensures Search(stores, keyword) == Search(stores, ToLower(keyword))
  {
    ToLowerTwice(keyword);
    if stores != [] {
      SearchIgnoresCase(stores[..|stores| - 1], keyword);
    }
  }

  /** From the tests' search table: the upper-case keyword "DICE" finds only
      the store named "DiCE 秋葉原店". */
  lemma SampleSearchDice()
    ensures Search(SampleStores(), "DICE") == [SampleStores()[2]]
  {
    DiceLower();
    DiceHit();
    DiceMisses();
    SearchFive(SampleStores(), "DICE");
  }

  /** Lower-casing the keyword "DICE" gives "dice". */
  lemma DiceLower()
    ensures ToLower("DICE") == "dice"
  {
    var l := ToLower("DICE");
    assert l[0] == 'd' && l[1] == 'i' && l[2] == 'c' && l[3] == 'e';
  }

  /** The lower-cased name "dice 秋葉原店" starts with "dice". */
  lemma DiceHit()
    ensures Matches(SampleStores()[2], "dice")
  {
    var n := ToLower(SampleStores()[2].name);
    assert n[..4] == "dice";
    assert OccursAt(n, "dice", 0);
  }

  /** No other sample store has a 'd' in its lower-cased name or location. */
  lemma DiceMisses()
    ensures forall k :: 0 <= k < 5 && k != 2 ==> !Matches(SampleStores()[k], "dice")
  {
    DiceMissKaikatsu();
    DiceMissJiqoo();
    DiceMissManboo();
    DiceMissAprecio();
  }

  lemma DiceMissKaikatsu() ensures !Matches(KaikatsuShinjuku, "dice") {
    NoDice("快活CLUB 新宿西口店");
    NoDice("東京都新宿区西新宿1-12-9");
  }

  lemma DiceMissJiqoo() ensures !Matches(JiqooIkebukuro, "dice") {
    NoDice("自遊空間 池袋西口ROSA店");
    NoDice("東京都豊島区西池袋1-37-12");
  }

  lemma DiceMissManboo() ensures !Matches(ManbooShibuya, "dice") {
    NoDice("マンボー 渋谷宮益坂店");
    NoDice("東京都渋谷区渋谷1-12-1");
  }

  lemma DiceMissAprecio() ensures !Matches(AprecioKabukicho, "dice") {
    NoDice("アプレシオ 新宿歌舞伎町店");
    NoDice("東京都新宿区歌舞伎町1-20-1");
  }

  /** A text with no 'd' in either case does not contain "dice" once lowered. */
  lemma NoDice(s: string)
    requires 'd' !in s && 'D' !in s
    ensures !Contains(ToLower(s), "dice")
  {
    forall k | 0 <= k < |s|
      ensures ToLower(s)[k] != 'd'
    {
      assert s[k] != 'd' && s[k] != 'D';
    }
    Absent(ToLower(s), "dice");
  }

  /** From the tests' search table: "新宿" finds the first and the last store. */
  lemma SampleSearchShinjuku()
    ensures Search(SampleStores(), "新宿") == [SampleStores()[0], SampleStores()[4]]
  {
    assert ToLower("新宿") == "新宿";
    ShinjukuHits();
    ShinjukuMisses();
    SearchFive(SampleStores(), "新宿");
  }

  /** The first and the last sample store are in Shinjuku. */
  lemma ShinjukuHits()
    ensures Matches(SampleStores()[0], "新宿") && Matches(SampleStores()[4], "新宿")
  {
    var s := SampleStores();
    assert OccursAt(ToLower(s[0].name), "新宿", 7);
    assert OccursAt(ToLower(s[4].name), "新宿", 6);
  }

  /** The three middle sample stores are not. */
  lemma ShinjukuMisses()
    ensures forall k :: 1 <= k < 4 ==> !Matches(SampleStores()[k], "新宿")
  {
    var s := SampleStores();
    forall k | 1 <= k < 4
      ensures !Matches(s[k], "新宿")
    {
      Absent(ToLower(s[k].name), "新宿");
      Absent(ToLower(s[k].location), "新宿");
    }
  }

  /** From the tests' search table: "横浜" finds nothing. */
  lemma SampleSearchYokohama()
    ensures Search(SampleStores(), "横浜") == []
  {
    assert ToLower("横浜") == "横浜";
    YokohamaMisses();
    SearchFive(SampleStores(), "横浜");
  }

  /** No sample store is in Yokohama. */
  lemma YokohamaMisses()
    ensures forall k :: 0 <= k < 5 ==> !Matches(SampleStores()[k], "横浜")
  {
    var s := SampleStores();
    forall k | 0 <= k < 5
      ensures !Matches(s[k], "横浜")
    {
      Absent(ToLower(s[k].name), "横浜");
      Absent(ToLower(s[k].location), "横浜");
    }
  }

  /** A search over five stores keeps each store that matches, in order. */
  lemma SearchFive(s: seq<NetCafe>, keyword: string)
    requires |s| == 5
    ensures var needle := ToLower(keyword);
      Search(s, keyword) == Kept(s[0], needle) + Kept(s[1], needle) + Kept(s[2], needle)
        + Kept(s[3], needle) + Kept(s[4], needle)
  {
    var needle := ToLower(keyword);
    var k0, k1, k2, k3, k4 := Kept(s[0], needle), Kept(s[1], needle), Kept(s[2], needle),
                              Kept(s[3], needle), Kept(s[4], needle);
    assert Search(s[..0], keyword) == [] by { assert s[..0] == []; }
    SearchStep(s, 1, keyword);
    assert Search(s[..1], keyword) == k0;
    SearchStep(s, 2, keyword);
    assert Search(s[..2], keyword) == k0 + k1;
    SearchStep(s, 3, keyword);
    assert Search(s[..3], keyword) == k0 + k1 + k2;
    SearchStep(s, 4, keyword);
    assert Search(s[..4], keyword) == k0 + k1 + k2 + k3;
    SearchStep(s, 5, keyword);
    assert s[..5] == s;
  }

  /** Searching one more store appends that store when it matches. */
  lemma SearchStep(s: seq<NetCafe>, k: nat, keyword: string)
    requires 0 < k <= |s|
    ensures Search(s[..k], keyword) == Search(s[..k - 1], keyword) + Kept(s[k - 1], ToLower(keyword))
  {
    assert s[..k][..k - 1] == s[..k - 1];
  }

  /** A string that lacks the first character of `sub` does not contain `sub`. */
  lemma Absent(s: string, sub: string)
    requires |sub| > 0 && sub[0] !in s
    ensures !Contains(s, sub)
  {
  }
}
