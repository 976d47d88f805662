/** The alert records the browser client works on, the identity key that the
    seen set and the played set are keyed by, the merge of the two feeds, and
    the per-category tables (public/js/script.js). */
module Alerts {
  import opened Optional
  import opened Text

  /** One record as the history proxy returns it. The JSON may lack
      `alertDate` or `category`, hence the options; a missing or empty
      `category_desc` is the empty string (both are falsy alike). */
  datatype FeedRecord = FeedRecord(alertDate: Option<string>, category: Option<int>, categoryDesc: string)

  /** A record of the merged batch: `nw` marks records of the nationwide feed. */
  datatype Alert = Alert(alertDate: Option<string>, category: Option<int>, categoryDesc: string, nw: bool)

  /** The validation before dedup: both `alertDate` and `category` must be
      truthy, so an empty date and category 0 are rejected as missing ones are. */
  predicate IsValid(a: Alert) {
    a.alertDate.Some? && a.alertDate.value != "" && a.category.Some? && a.category.value != 0
  }

  /** How a template string renders a possibly missing field. */
  function DateText(d: Option<string>): string {
    match d
    case None => "undefined"
    case Some(s) => s
  }

  function CategoryText(c: Option<int>): (s: string)
    ensures |s| > 0 && s[|s| - 1] != 'N'
  {
    match c
    case None => "undefined"
    case Some(n) => IntToString(n)
  }

  /** The identity `${alertDate}-${category}${nw ? "N" : ""}`: the key ends
      in 'N' exactly for nationwide records. */
  function Key(a: Alert): (id: string)
    ensures |id| > 0
    ensures id[|id| - 1] == 'N' <==> a.nw
  {
    DateText(a.alertDate) + "-" + CategoryText(a.category) + (if a.nw then "N" else "")
  }

  /** The same date and category seen on the city feed and on the nationwide
      feed are two identities, not one. */
  lemma FeedsGiveDistinctKeys(a: Alert, b: Alert)
    requires a.alertDate == b.alertDate && a.category == b.category && a.nw != b.nw
    ensures Key(a) != Key(b)
  {
    var ka, kb := Key(a), Key(b);
    assert ka[|ka| - 1] == 'N' <==> a.nw;
    assert kb[|kb| - 1] == 'N' <==> b.nw;
  }

  /** Within one feed, records with the same date and different categories
      have different identities. */
  lemma CategoriesGiveDistinctKeys(a: Alert, b: Alert)
    requires a.alertDate == b.alertDate && a.nw == b.nw
    requires a.category.Some? && b.category.Some? && a.category != b.category
    ensures Key(a) != Key(b)
  {
    var p := DateText(a.alertDate) + "-";
    var sa, sb := IntToString(a.category.value), IntToString(b.category.value);
    var t := if a.nw then "N" else "";
    if Key(a) == Key(b) {
      var k := Key(a);
      assert k == p + sa + t && k == p + sb + t;
      forall i | 0 <= i < |sa|
        ensures sa[i] == sb[i]
      {
        assert sa[i] == k[|p| + i] == sb[i];
      }
      assert sa == sb;
      IntToStringInjective(a.category.value, b.category.value);
    }
  }

  function Tag(r: FeedRecord, nationwide: bool): Alert {
    Alert(r.alertDate, r.category, r.categoryDesc, nationwide)
  }

  /** What a settled fetch contributes: its records, or nothing if it failed. */
  function Contribution(r: Option<seq<FeedRecord>>): (rs: seq<FeedRecord>)
    ensures r.None? ==> rs == []
  {
    match r
    case None => []
    case Some(records) => records
  }

  /** `[...locData, ...natData.map(a => ({...a, nw: true}))]`. */
  function Merge(city: seq<FeedRecord>, nation: seq<FeedRecord>): (data: seq<Alert>)
    ensures |data| == |city| + |nation|
    ensures forall i :: 0 <= i < |city| ==> data[i] == Tag(city[i], false)
    ensures forall i :: |city| <= i < |data| ==> data[i] == Tag(nation[i - |city|], true)
  {
    seq(|city|, i requires 0 <= i < |city| => Tag(city[i], false))
    + seq(|nation|, i requires 0 <= i < |nation| => Tag(nation[i], true))
  }

  /** `new Date(a.alertDate).getTime()`, with `None` for NaN; the date
      parser itself is a parameter, and a missing date never parses. */
  function ParsedTime(a: Alert, parse: string -> Option<int>): Option<int> {
    match a.alertDate
    case None => None
    case Some(d) => parse(d)
  }

  /** Per-category state: the description and whether its check-box is ticked. */
  datatype CategoryInfo = CategoryInfo(desc: string, checked: bool)

  /** The default categories in the order `Object.entries` yields them
      (integer-like keys ascending). */
  const DefaultCategories: seq<(int, string)> :=
    [(1, "Missiles"), (2, "Hostile aircraft"), (13, "Update"), (14, "Flash")]

  /** A record's category is enabled when it is registered and ticked; an
      unregistered or missing category is never enabled. */
  predicate IsEnabled(category: Option<int>, cats: map<int, CategoryInfo>) {
    category.Some? && category.value in cats && cats[category.value].checked
  }

  /** The alarm length: 5 s for "Update" (13), 30 s for everything else,
      including categories the table does not list. */
  function SoundDuration(category: int): (ms: nat)
    ensures ms == 5000 <==> category == 13
    ensures ms != 5000 ==> ms == 30000
  {
    if category == 13 then 5000
    else if category == 1 || category == 2 || category == 14 then 30000
    else 30000
  }

  /** The sound asset of a category; unmapped categories have none. */
  function SoundFile(category: int): (f: Option<string>)
    ensures f.Some? <==> category in {1, 2, 13, 14}
  {
    if category == 1 then Some("audio/missiles.mp3")
    else if category == 2 then Some("audio/hostileAircraft.mp3")
    else if category == 14 then Some("audio/flash.mp3")
    else if category == 13 then Some("audio/update.mp3")
    else None
  }

  const MinSec := 1

  /** `Math.max(MIN_SEC, v)` on the seconds typed into an input. */
  function ClampSeconds(v: int): (r: int)
    ensures r >= MinSec
    ensures r == v || r == MinSec
    ensures v >= MinSec ==> r == v
  {
    if v < MinSec then MinSec else v
  }
}
