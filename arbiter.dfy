/** The freshness filter and the alarm arbitration of `poll`
    (public/js/script.js): the fresh-and-enabled records of the WHOLE merged
    batch are found, the newest of them wins (the earliest in batch order on a
    tie, as the stable sort leaves it first), and its identity is checked
    against and added to the played set. */
module Arbiter {
  import opened Optional
  import opened Alerts

  /** What the freshness test reads: the cycle's clock, the lookback window,
      the registered categories and the date parser. */
  datatype Criteria = Criteria(now: int, lookBackMs: int, cats: map<int, CategoryInfo>, parse: string -> Option<int>)

  /** Fresh and enabled: the date parses, the record is at most `lookBackMs`
      old (a future date counts as fresh) and its category is registered and
      ticked. */
  predicate IsFreshEnabled(a: Alert, c: Criteria) {
    match ParsedTime(a, c.parse)
    case None => false
    case Some(t) => c.now - t <= c.lookBackMs && IsEnabled(a.category, c.cats)
  }

  /** `data.filter(...)` with the freshness test. */
  function FreshAlerts(data: seq<Alert>, c: Criteria): (r: seq<Alert>)
    ensures |r| <= |data|
    ensures forall a :: a in r <==> a in data && IsFreshEnabled(a, c)
  {
    if data == [] then []
    else
      var init, last := data[..|data| - 1], data[|data| - 1];
      assert data == init + [last];
      FreshAlerts(init, c) + (if IsFreshEnabled(last, c) then [last] else [])
  }

  function TimeOf(a: Alert, parse: string -> Option<int>): int
    requires ParsedTime(a, parse).Some?
  {
    ParsedTime(a, parse).value
  }

  predicate AllTimed(xs: seq<Alert>, parse: string -> Option<int>) {
    forall i :: 0 <= i < |xs| ==> ParsedTime(xs[i], parse).Some?
  }

  /** The record a stable newest-first sort moves to the front, found in one
      pass: a later record takes the lead only when it is strictly newer. */
  function Newest(xs: seq<Alert>, parse: string -> Option<int>): (w: Option<Alert>)
    requires AllTimed(xs, parse)
    ensures w.None? <==> xs == []
    ensures w.Some? ==> w.value in xs
  {
    if xs == [] then None
    else
      var init, last := xs[..|xs| - 1], xs[|xs| - 1];
      assert forall i :: 0 <= i < |init| ==> init[i] == xs[i];
      var w := Newest(init, parse);
      if w.None? || TimeOf(last, parse) > TimeOf(w.value, parse) then Some(last) else w
  }

  /** The record whose sound the cycle considers: `freshAlerts.sort(...)[0]`. */
  function Winner(data: seq<Alert>, c: Criteria): (w: Option<Alert>)
    ensures w.Some? ==> w.value in data && IsFreshEnabled(w.value, c)
    ensures w.None? <==> forall a :: a in data ==> !IsFreshEnabled(a, c)
  {
    var candidates := FreshAlerts(data, c);
    assert forall i :: 0 <= i < |candidates| ==> candidates[i] in candidates;
    Newest(candidates, c.parse)
  }

  /** Record `i` of the batch is fresh and enabled, no fresh record is newer,
      and every fresh record before it is strictly older. */
  ghost predicate IsNewestFresh(data: seq<Alert>, i: int, c: Criteria) {
    && 0 <= i < |data|
    && IsFreshEnabled(data[i], c)
    && forall j :: 0 <= j < |data| && IsFreshEnabled(data[j], c) ==>
         TimeOf(data[j], c.parse) <= TimeOf(data[i], c.parse)
         && (j < i ==> TimeOf(data[j], c.parse) < TimeOf(data[i], c.parse))
  }

  /** A newest record of all but the last stays newest when the last record
      is not a newer fresh one. */
  lemma ExtendNewest(data: seq<Alert>, i: nat, c: Criteria)
    requires |data| > 0 && IsNewestFresh(data[..|data| - 1], i, c)
    requires IsFreshEnabled(data[|data| - 1], c) ==>
      TimeOf(data[|data| - 1], c.parse) <= TimeOf(data[i], c.parse)
    ensures IsNewestFresh(data, i, c)
  {
    var init := data[..|data| - 1];
    forall j | 0 <= j < |data| - 1
      ensures data[j] == init[j]
    {
    }
  }

  /** The last record is the newest when every earlier fresh record is older. */
  lemma LastIsNewest(data: seq<Alert>, c: Criteria)
    requires |data| > 0 && IsFreshEnabled(data[|data| - 1], c)
    requires forall j :: 0 <= j < |data| - 1 && IsFreshEnabled(data[j], c) ==>
      TimeOf(data[j], c.parse) < TimeOf(data[|data| - 1], c.parse)
    ensures IsNewestFresh(data, |data| - 1, c)
  {
  }

  /** How the winner changes when one more record joins the batch. */
  lemma WinnerStep(data: seq<Alert>, c: Criteria)
    requires |data| > 0
    ensures var init, last := data[..|data| - 1], data[|data| - 1];
      && (!IsFreshEnabled(last, c) ==> Winner(data, c) == Winner(init, c))
      && (IsFreshEnabled(last, c) && Winner(init, c).None? ==> Winner(data, c) == Some(last))
      && (IsFreshEnabled(last, c) && Winner(init, c).Some? ==>
            Winner(data, c) == if TimeOf(last, c.parse) > TimeOf(Winner(init, c).value, c.parse)
                               then Some(last) else Winner(init, c))
  {
    var init, last := data[..|data| - 1], data[|data| - 1];
    var f0 := FreshAlerts(init, c);
    if !IsFreshEnabled(last, c) {
      assert FreshAlerts(data, c) == f0;
    } else if f0 == [] {
      assert FreshAlerts(data, c) == [last];
    } else {
      FreshLastStep(data, c);
    }
  }

  lemma FreshLastStep(data: seq<Alert>, c: Criteria)
    requires |data| > 0 && IsFreshEnabled(data[|data| - 1], c)
    requires FreshAlerts(data[..|data| - 1], c) != []
    ensures var w0, last := Winner(data[..|data| - 1], c), data[|data| - 1];
      w0.Some? && Winner(data, c) == if TimeOf(last, c.parse) > TimeOf(w0.value, c.parse) then Some(last) else w0
  {
    var f0, last := FreshAlerts(data[..|data| - 1], c), data[|data| - 1];
    var f := FreshAlerts(data, c);
    assert f == f0 + [last];
    assert f[..|f| - 1] == f0;
  }

  /** The induction step of WinnerIsNewestFresh when the last record is the
      first fresh one. */
  lemma OnlyLastIsFresh(data: seq<Alert>, c: Criteria)
    requires |data| > 0 && IsFreshEnabled(data[|data| - 1], c)
    requires Winner(data[..|data| - 1], c).None?
    ensures IsNewestFresh(data, |data| - 1, c)
  {
    var init := data[..|data| - 1];
    forall j | 0 <= j < |data| - 1
      ensures !IsFreshEnabled(data[j], c)
    {
      assert data[j] == init[j] && init[j] in init;
    }
    LastIsNewest(data, c);
  }

  /** The induction step of WinnerIsNewestFresh when the last record is
      fresher than the earlier winner. */
  lemma LastBeatsWinner(data: seq<Alert>, i: nat, c: Criteria)
    requires |data| > 0 && IsFreshEnabled(data[|data| - 1], c)
    requires IsNewestFresh(data[..|data| - 1], i, c)
    requires TimeOf(data[|data| - 1], c.parse) > TimeOf(data[i], c.parse)
    ensures IsNewestFresh(data, |data| - 1, c)
  {
    var init := data[..|data| - 1];
    forall j | 0 <= j < |data| - 1 && IsFreshEnabled(data[j], c)
      ensures TimeOf(data[j], c.parse) < TimeOf(data[|data| - 1], c.parse)
    {
      assert init[j] == data[j];
    }
    LastIsNewest(data, c);
  }

  /** The winner is the newest fresh record of the whole batch, ties going to
      the earliest one in merged order. */
  lemma {:induction false} WinnerIsNewestFresh(data: seq<Alert>, c: Criteria)
    ensures Winner(data, c).Some? ==> exists i :: IsNewestFresh(data, i, c) && data[i] == Winner(data, c).value
  {
    if data != [] {
      var n := |data|;
      var init, last := data[..n - 1], data[n - 1];
      WinnerIsNewestFresh(init, c);
      WinnerStep(data, c);
      var w0 := Winner(init, c);
      if w0.None? {
        if IsFreshEnabled(last, c) {
          OnlyLastIsFresh(data, c);
        }
      } else {
        var i :| IsNewestFresh(init, i, c) && init[i] == w0.value;
        assert data[i] == init[i];
        if IsFreshEnabled(last, c) && TimeOf(last, c.parse) > TimeOf(w0.value, c.parse) {
          LastBeatsWinner(data, i, c);
        } else {
          ExtendNewest(data, i, c);
        }
      }
    }
  }

  /** What the cycle plays: the winner's category, its asset and how long. */
  datatype Sound = Sound(category: int, file: Option<string>, durationMs: nat)

  /** The arbitration's effect on the played set and the pause. */
  datatype AlarmDecision = AlarmDecision(sound: Option<Sound>, played: set<string>, pauseUntil: Option<int>)

  const PlayedLimit := 100

  /** The played set is emptied wholesale once it holds more than 100
      entries: afterwards it holds at most 100, and a set that was within the
      limit is kept whole. */
  function BulkClear(played: set<string>): (r: set<string>)
    ensures |r| <= PlayedLimit
    ensures r == played || r == {}
    ensures |played| <= PlayedLimit ==> r == played
  {
    if |played| > PlayedLimit then {} else played
  }

  function SoundFor(category: int): Sound {
    Sound(category, SoundFile(category), SoundDuration(category))
  }

  /** The arbitration once the winner is known: a sound plays, its identity
      joins the played set and polling pauses for the sound's duration
      exactly when the winner's identity has not been played yet; otherwise
      nothing changes. */
  function DecideAlarm(played: set<string>, pauseUntil: Option<int>, winner: Option<Alert>, now: int): (d: AlarmDecision)
    requires winner.Some? ==> winner.value.category.Some?
    ensures d.sound.Some? <==> winner.Some? && Key(winner.value) !in played
    ensures d.sound.None? ==> d.played == played && d.pauseUntil == pauseUntil
    ensures d.sound.Some? ==>
      && d.sound.value == SoundFor(winner.value.category.value)
      && d.played == played + {Key(winner.value)}
      && d.pauseUntil == Some(now + d.sound.value.durationMs)
      && d.sound.value.durationMs > 0
  {
    match winner
    case None => AlarmDecision(None, played, pauseUntil)
    case Some(w) =>
      var id := Key(w);
      if id in played then AlarmDecision(None, played, pauseUntil)
      else
        var s := SoundFor(w.category.value);
        AlarmDecision(Some(s), played + {id}, Some(now + s.durationMs))
  }

  /** Re-running the arbitration with the same winner after it played never
      plays it again, whatever the clock says. */
  lemma AlarmIsIdempotent(played: set<string>, pauseUntil: Option<int>, winner: Option<Alert>, now: int, later: int, pause2: Option<int>)
    requires winner.Some? ==> winner.value.category.Some?
    ensures DecideAlarm(DecideAlarm(played, pauseUntil, winner, now).played, pause2, winner, later).sound == None
  {
  }

  /** After the bulk clear and the arbitration the played set holds at most
      101 identities: the clear fires above 100 and one identity is added. */
  lemma PlayedStaysBounded(played: set<string>, pauseUntil: Option<int>, winner: Option<Alert>, now: int)
    requires winner.Some? ==> winner.value.category.Some?
    ensures |DecideAlarm(BulkClear(played), pauseUntil, winner, now).played| <= PlayedLimit + 1
  {
    var cleared := BulkClear(played);
    var d := DecideAlarm(cleared, pauseUntil, winner, now);
    if d.sound.Some? {
      var id := Key(winner.value);
      assert |cleared + {id}| == |cleared| + 1;
    }
  }
}
