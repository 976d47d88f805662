/** One completed poll cycle of public/js/script.js as a function of the
    session state before it: merge, category registration, dedup,
    rendering and sorting, the bulk clear, the arbitration and the next
    delay. The session class in module Session performs these steps in place
    and promises exactly this result; the lemmas here are what the cycle
    guarantees across calls. */
module Cycle {
  import opened Optional
  import opened Alerts
  import opened Retry
  import opened Dedup
  import opened Arbiter
  import opened LogView

  /** The state a cycle reads and writes. */
  datatype Ledger = Ledger(
    seen: set<string>,
    played: set<string>,
    pauseUntil: Option<int>,
    cats: map<int, CategoryInfo>,
    log: seq<Row>)

  /** The state a cycle only reads. */
  datatype Settings = Settings(
    sortDesc: bool,
    autoOn: bool,
    pollMs: int,
    lookBackMs: int,
    parse: string -> Option<int>)

  /** What one call of `poll` gives back: whether the feeds were fetched, the
      records rendered as new, the sound chosen and the delay of the next
      `setTimeout(poll, …)` (None: no timer armed). */
  datatype CycleOutcome = CycleOutcome(fetched: bool, newAlerts: seq<Alert>, sound: Option<Sound>, nextDelayMs: Option<int>)

  /** The re-check delay while polling is paused. */
  const PausedRecheckMs := 1000

  /** `addCatBox` on the map alone: an existing category is left as it is; a
      new one is registered ticked. */
  function AddCategory(cats: map<int, CategoryInfo>, cat: int, desc: string): (r: map<int, CategoryInfo>)
    ensures r.Keys == cats.Keys + {cat}
    ensures forall c :: c in cats ==> r[c] == cats[c]
    ensures cat !in cats ==> r[cat] == CategoryInfo(desc, true)
  {
    if cat in cats then cats else cats[cat := CategoryInfo(desc, true)]
  }

  /** `addCatBox` over a list of entries, in order. */
  function RegisterAll(cats: map<int, CategoryInfo>, entries: seq<(int, string)>): map<int, CategoryInfo> {
    if entries == [] then cats
    else
      var e := entries[|entries| - 1];
      AddCategory(RegisterAll(cats, entries[..|entries| - 1]), e.0, e.1)
  }

  /** Registration only adds: the keys become the old keys plus the entries'
      keys, registered categories keep their state, and each new category is
      ticked and described by one of its entries. */
  lemma {:induction false} RegisterAllSpec(cats: map<int, CategoryInfo>, entries: seq<(int, string)>)
    ensures var r := RegisterAll(cats, entries);
      && (forall c :: c in r <==> c in cats || exists e :: e in entries && e.0 == c)
      && (forall c :: c in cats ==> r[c] == cats[c])
      && (forall c :: c in r && c !in cats ==> r[c].checked && exists e :: e in entries && e == (c, r[c].desc))
  {
    if entries != [] {
      var init, e := entries[..|entries| - 1], entries[|entries| - 1];
      assert entries == init + [e];
      assert forall x :: x in init ==> x in entries;
      RegisterAllSpec(cats, init);
      var r0, r := RegisterAll(cats, init), RegisterAll(cats, entries);
      forall c | c in r && c !in cats
        ensures r[c].checked && exists x :: x in entries && x == (c, r[c].desc)
      {
        if c in r0 {
          var x :| x in init && x == (c, r0[c].desc);
          assert x in entries;
        } else {
          assert c == e.0 && r[c] == CategoryInfo(e.1, true);
          assert e in entries;
        }
      }
    }
  }

  /** Registering the same entries again changes nothing. */
  lemma {:induction false} RegisterAllIdempotent(cats: map<int, CategoryInfo>, entries: seq<(int, string)>)
    ensures RegisterAll(RegisterAll(cats, entries), entries) == RegisterAll(cats, entries)
  {
    var r := RegisterAll(cats, entries);
    RegisterAllSpec(cats, entries);
    forall e | e in entries
      ensures e.0 in r
    {
      var c := e.0;
      assert exists x :: x in entries && x.0 == c;
    }
    RegisterKnown(r, entries);
  }

  /** Entries whose categories are all registered change nothing. */
  lemma {:induction false} RegisterKnown(cats: map<int, CategoryInfo>, entries: seq<(int, string)>)
    requires forall e :: e in entries ==> e.0 in cats
    ensures RegisterAll(cats, entries) == cats
  {
    if entries != [] {
      var init := entries[..|entries| - 1];
      assert forall e :: e in init ==> e in entries;
      RegisterKnown(cats, init);
    }
  }

  /** The merged batch of a cycle: city records, then nationwide ones. */
  function Batch(cityAttempts: nat -> Attempt, nationAttempts: nat -> Attempt): seq<Alert> {
    Merge(SourceRecords(cityAttempts), SourceRecords(nationAttempts))
  }

  /** A source whose three attempts all fail adds nothing, and the cycle goes
      on with the other source's records alone. */
  lemma FailedSourceAddsNothing(cityAttempts: nat -> Attempt, nationAttempts: nat -> Attempt)
    requires forall i :: 0 <= i < MaxRetries ==> cityAttempts(i).Failed?
    ensures Batch(cityAttempts, nationAttempts) == Merge([], SourceRecords(nationAttempts))
  {
    assert FirstSuccess(cityAttempts, 2, MaxRetries) == None;
    assert FirstSuccess(cityAttempts, 1, MaxRetries) == None;
  }

  /** The placeholder goes when the batch is non-empty: the whole log is
      emptied (`log.innerHTML = ""`), not only the placeholder. */
  function ClearPlaceholder(log: seq<Row>, data: seq<Alert>): (r: seq<Row>)
    ensures |data| > 0 ==> EmptyState !in r
    ensures r == log || r == []
    ensures EmptyState !in log ==> r == log
  {
    if |data| > 0 && EmptyState in log then [] else log
  }

  function CycleCriteria(now: int, s: Settings, cats: map<int, CategoryInfo>): Criteria {
    Criteria(now, s.lookBackMs, cats, s.parse)
  }

  /** `pausePollingUntil && now < pausePollingUntil ? 1000 : pollMs`, when
      auto-polling is on. */
  function NextDelay(autoOn: bool, pauseUntil: Option<int>, now: int, pollMs: int): (d: Option<int>)
    ensures d.Some? <==> autoOn
    ensures autoOn && pauseUntil.Some? && now < pauseUntil.value ==> d == Some(PausedRecheckMs)
    ensures autoOn && (pauseUntil.None? || pauseUntil.value <= now) ==> d == Some(pollMs)
  {
    if !autoOn then None
    else if pauseUntil.Some? && now < pauseUntil.value then Some(PausedRecheckMs)
    else Some(pollMs)
  }

  /** The batch taken into the page: the default categories registered,
      the placeholder cleared, the new alerts picked out of the batch and
      added to the seen set, rendered, and the log sorted. */
  ghost function Ingested(l: Ledger, s: Settings, data: seq<Alert>): (Ledger, seq<Alert>)
  {
    var cats := RegisterAll(l.cats, DefaultCategories);
    var newAlerts := NewAlerts(l.seen, data);
    var log := SortLog(ClearPlaceholder(l.log, data) + RenderRows(newAlerts, cats, s.parse), s.sortDesc);
    (l.(seen := l.seen + ValidKeys(data), cats := cats, log := log), newAlerts)
  }

  /** The end of the cycle: the bulk clear, then the arbitration. */
  function Alarmed(l: Ledger, s: Settings, now: int, data: seq<Alert>): (Ledger, Option<Sound>)
  {
    var d := DecideAlarm(BulkClear(l.played), l.pauseUntil, Winner(data, CycleCriteria(now, s, l.cats)), now);
    (l.(played := d.played, pauseUntil := d.pauseUntil), d.sound)
  }

  /** The state and outcome after the body of `poll` has run at time `now`. */
  ghost function CycleResult(l: Ledger, s: Settings, now: int, cityAttempts: nat -> Attempt, nationAttempts: nat -> Attempt): (Ledger, CycleOutcome)
  {
    var data := Batch(cityAttempts, nationAttempts);
    var (l1, newAlerts) := Ingested(l, s, data);
    var (l2, sound) := Alarmed(l1, s, now, data);
    (l2, CycleOutcome(true, newAlerts, sound, NextDelay(s.autoOn, l2.pauseUntil, now, s.pollMs)))
  }

  /** Bounds a completed cycle keeps: the played set ends with at most 101
      identities; a sound pauses polling until `now` plus its duration and
      asks for a re-check after one second; with no sound and no pause left
      the next poll comes after the interval. */
  lemma CycleBounds(l: Ledger, s: Settings, now: int, cityAttempts: nat -> Attempt, nationAttempts: nat -> Attempt)
    ensures var (l2, out) := CycleResult(l, s, now, cityAttempts, nationAttempts);
      && |l2.played| <= PlayedLimit + 1
      && l.seen <= l2.seen
      && (out.sound.Some? ==> l2.pauseUntil == Some(now + out.sound.value.durationMs) && out.sound.value.durationMs > 0)
      && (out.sound.Some? && s.autoOn ==> out.nextDelayMs == Some(PausedRecheckMs))
      && (out.sound.None? && l.pauseUntil.None? ==> l2.pauseUntil.None?)
      && (out.sound.None? && l.pauseUntil.None? && s.autoOn ==> out.nextDelayMs == Some(s.pollMs))
      && (!s.autoOn ==> out.nextDelayMs.None?)
  {
    var data := Batch(cityAttempts, nationAttempts);
    var (l1, _) := Ingested(l, s, data);
    assert l.seen <= l1.seen && l1.pauseUntil == l.pauseUntil;
    AlarmedBounds(l1, s, now, data);
  }

  /** The end of a cycle keeps the played set within 101 identities, and
      changes the pause exactly when a sound is chosen, to `now` plus its
      positive duration. */
  lemma AlarmedBounds(l: Ledger, s: Settings, now: int, data: seq<Alert>)
    ensures var (l2, sound) := Alarmed(l, s, now, data);
      && |l2.played| <= PlayedLimit + 1
      && (sound.Some? ==> l2.pauseUntil == Some(now + sound.value.durationMs) && sound.value.durationMs > 0)
      && (sound.None? ==> l2.pauseUntil == l.pauseUntil)
  {
    PlayedStaysBounded(l.played, l.pauseUntil, Winner(data, CycleCriteria(now, s, l.cats)), now);
  }

  /** A record fresh at a later time was fresh at an earlier one. */
  lemma FreshEarlier(a: Alert, c: Criteria, later: int)
    requires c.now <= later && IsFreshEnabled(a, c.(now := later))
    ensures IsFreshEnabled(a, c)
  {
  }

  /** As the clock advances the winner stays the same record until no
      record is fresh any more. */
  lemma WinnerAsClockAdvances(data: seq<Alert>, c: Criteria, later: int)
    requires c.now <= later
    ensures Winner(data, c.(now := later)).None? || Winner(data, c.(now := later)) == Winner(data, c)
  {
    var c2 := c.(now := later);
    if Winner(data, c2).Some? {
      WinnerIsNewestFresh(data, c2);
      var i2 :| IsNewestFresh(data, i2, c2) && data[i2] == Winner(data, c2).value;
      FreshEarlier(data[i2], c, later);
      assert data[i2] in data;
      WinnerIsNewestFresh(data, c);
      var i1 :| IsNewestFresh(data, i1, c) && data[i1] == Winner(data, c).value;
      assert IsFreshEnabled(data[i1], c2);
      if i1 < i2 {
        assert false;
      } else if i2 < i1 {
        assert false;
      }
    }
  }

  /** Running the cycle again on the same feeds yields no new alert, and no
      sound either unless the bulk clear emptied the played set in between
      (the played set then held 101 identities, and the winner's alarm sounds
      again: the known imprecision of the bulk clear). */
  lemma RepeatedCycleIsQuiet(l: Ledger, s: Settings, now: int, later: int, cityAttempts: nat -> Attempt, nationAttempts: nat -> Attempt)
    requires now <= later
    ensures var (l1, _) := CycleResult(l, s, now, cityAttempts, nationAttempts);
      var (_, out2) := CycleResult(l1, s, later, cityAttempts, nationAttempts);
      && out2.newAlerts == []
      && (|l1.played| <= PlayedLimit ==> out2.sound == None)
  {
    var data := Batch(cityAttempts, nationAttempts);
    var (l1, out1) := CycleResult(l, s, now, cityAttempts, nationAttempts);
    RepeatedBatchHasNoNewAlerts(l1.seen, data);
    RegisterAllIdempotent(l.cats, DefaultCategories);
    var c1 := CycleCriteria(now, s, l1.cats);
    WinnerAsClockAdvances(data, c1, later);
    assert CycleCriteria(later, s, l1.cats) == c1.(now := later);
  }
  /** The other side of the bulk clear: once the played set holds more than
      100 identities it is emptied before the arbitration, so a winner whose
      identity is among them sounds again. */
  lemma BulkClearReplays(l: Ledger, s: Settings, now: int, data: seq<Alert>)
    requires |l.played| > PlayedLimit
    requires Winner(data, CycleCriteria(now, s, l.cats)).Some?
    requires Key(Winner(data, CycleCriteria(now, s, l.cats)).value) in l.played
    ensures var w := Winner(data, CycleCriteria(now, s, l.cats)).value;
      Alarmed(l, s, now, data).1 == Some(SoundFor(w.category.value))
  {
  }

}
