/** The browser client's state and its event handlers (public/js/script.js):
    the poll cycle, the UI reset, category registration, sorting and the
    input handlers. Each method changes the fields in place as the handler
    does, and states its new state in terms of the functions of modules
    Cycle, Dedup, Arbiter and LogView, whose properties are proved there. */
module Session {
  import opened Optional
  import opened Text
  import opened Alerts
  import opened Retry
  import opened Dedup
  import opened Arbiter
  import opened LogView
  import opened Cycle

  /** How the guard at the top of `poll` ended: skipped because polling is
      paused, skipped because a cycle is in flight, or started. */
  datatype Gate = Paused | Busy | Started

  class PollSession {
    /** `new Date(s).getTime()`: None stands for NaN. */
    const parse: string -> Option<int>
    var city: string
    var histRange: string
    var seen: set<string>
    var played: set<string>
    var pauseUntil: Option<int>
    var isPolling: bool
    var cats: map<int, CategoryInfo>
    var log: seq<Row>
    var sortDesc: bool
    var autoOn: bool
    var pollMs: int
    var lookBackMs: int

    /** The played set stays within 101 identities, and a pause is a
        positive time stamp, so its truthiness in the source is `Some?`. */
    ghost predicate Valid()
      reads this
    {
      |played| <= PlayedLimit + 1 && (pauseUntil.Some? ==> pauseUntil.value > 0)
    }

    function State(): Ledger
      reads this
    {
      Ledger(seen, played, pauseUntil, cats, log)
    }

    function Config(): Settings
      reads this
    {
      Settings(sortDesc, autoOn, pollMs, lookBackMs, parse)
    }

    /** `pausePollingUntil && now < pausePollingUntil`. */
    predicate PausedAt(now: int)
      reads this
    {
      pauseUntil.Some? && now < pauseUntil.value
    }

    /** The page's initial state: the city input trimmed, the interval and
        look-back inputs in seconds, sorting newest first, auto-polling on
        and the log showing its placeholder. */
    constructor (parse: string -> Option<int>, cityInput: string, range: string, intervalSeconds: int, lookbackSeconds: int)
      ensures Valid() && this.parse == parse
      ensures city == Trim(cityInput) && histRange == range
      ensures pollMs == intervalSeconds * 1000 && lookBackMs == lookbackSeconds * 1000
      ensures seen == {} && played == {} && pauseUntil == None && !isPolling
      ensures cats == map[] && log == [EmptyState] && sortDesc && autoOn
    {
      this.parse := parse;
      city := Trim(cityInput);
      histRange := range;
      pollMs := intervalSeconds * 1000;
      lookBackMs := lookbackSeconds * 1000;
      seen := {};
      played := {};
      pauseUntil := None;
      isPolling := false;
      cats := map[];
      log := [EmptyState];
      sortDesc := true;
      autoOn := true;
    }

    /** `resetUI`: the seen set, the categories and the played set are
        emptied, the log shows its placeholder and any pause is lifted. */
    method ResetUI()
      modifies this`seen, this`cats, this`log, this`pauseUntil, this`played
      ensures Valid()
      ensures seen == {} && cats == map[] && log == [EmptyState] && pauseUntil == None && played == {}
    {
      seen := {};
      cats := map[];
      log := [EmptyState];
      pauseUntil := None;
      played := {};
    }

    /** `addCatBox`: a category is registered once, ticked. */
    method AddCatBox(cat: int, desc: string)
      modifies this`cats
      ensures cats == AddCategory(old(cats), cat, desc)
    {
      if cat !in cats {
        cats := cats[cat := CategoryInfo(desc, true)];
      }
    }

    /** The `Object.entries(DEFAULT_CATS).forEach(addCatBox)` loop. */
    method RegisterDefaults()
      modifies this`cats
      ensures cats == RegisterAll(old(cats), DefaultCategories)
    {
      var i := 0;
      while i < |DefaultCategories|
        invariant 0 <= i <= |DefaultCategories|
        invariant cats == RegisterAll(old(cats), DefaultCategories[..i])
      {
        var e := DefaultCategories[i];
        AddCatBox(e.0, e.1);
        assert DefaultCategories[..i + 1][..i] == DefaultCategories[..i];
        i := i + 1;
      }
      assert DefaultCategories[..i] == DefaultCategories;
    }

    /** The dedup loop: each valid record whose identity is not in the seen
        set is added to it and becomes a new alert. */
    method DedupBatch(data: seq<Alert>) returns (newAlerts: seq<Alert>)
      modifies this`seen
      ensures newAlerts == NewAlerts(old(seen), data)
      ensures seen == old(seen) + ValidKeys(data)
    {
      newAlerts := [];
      var i := 0;
      while i < |data|
        invariant 0 <= i <= |data|
        invariant seen == old(seen) + ValidKeys(data[..i])
        invariant newAlerts == NewAlertsUpTo(old(seen), data, i)
      {
        var a := data[i];
        DedupStep(old(seen), data, i);
        if IsValid(a) {
          var id := Key(a);
          if id !in seen {
            seen := seen + {id};
            newAlerts := newAlerts + [a];
          }
        }
        i := i + 1;
      }
      assert data[..i] == data;
    }

    /** `newAlerts.forEach(renderRow)`: each parsable record appends a row. */
    method RenderNew(newAlerts: seq<Alert>)
      modifies this`log
      ensures log == old(log) + RenderRows(newAlerts, cats, parse)
    {
      var i := 0;
      while i < |newAlerts|
        invariant 0 <= i <= |newAlerts|
        invariant log == old(log) + RenderRows(newAlerts[..i], cats, parse)
      {
        RenderStep(newAlerts, cats, parse, i);
        var row := RenderRow(newAlerts[i], cats, parse);
        if row.Some? {
          log := log + [row.value];
        }
        i := i + 1;
      }
      assert newAlerts[..i] == newAlerts;
    }

    /** `sortLogEntries`. */
    method SortLogEntries()
      modifies this`log
      ensures log == SortLog(old(log), sortDesc)
    {
      log := SortLog(log, sortDesc);
    }

    /** The arbitration at the end of a cycle, once the newest fresh
        enabled record is known: it sounds unless its identity was already
        played, and polling pauses for the sound's duration. */
    method Arbitrate(now: int, winner: Option<Alert>) returns (sound: Option<Sound>)
      requires winner.Some? ==> winner.value.category.Some?
      modifies this`played, this`pauseUntil
      ensures var d := DecideAlarm(old(played), old(pauseUntil), winner, now);
        sound == d.sound && played == d.played && pauseUntil == d.pauseUntil
    {
      sound := None;
      if winner.Some? {
        var a := winner.value;
        var id := Key(a);
        if id !in played {
          var s := SoundFor(a.category.value);
          played := played + {id};
          pauseUntil := Some(now + s.durationMs);
          sound := Some(s);
        }
      }
    }

    /** The guard of `poll`: a poll during a pause is skipped and re-checked
        after a second; an expired pause is cleared; a poll while another
        is in flight is skipped; otherwise the cycle starts and the pending
        timer is cancelled (`clearTimeout`), so that a poll triggered from a
        handler replaces the timer chain instead of starting a second one. */
    method BeginPoll(now: nat) returns (gate: Gate, delay: Option<int>, cancelTimer: bool)
      requires Valid()
      modifies this`pauseUntil, this`isPolling
      ensures Valid()
      ensures gate == Paused <==> old(PausedAt(now))
      ensures gate == Paused ==> delay == (if autoOn then Some(PausedRecheckMs) else None) && pauseUntil == old(pauseUntil) && isPolling == old(isPolling)
      ensures gate != Paused ==> pauseUntil == None && delay == None && isPolling
      ensures gate == Busy <==> !old(PausedAt(now)) && old(isPolling)
      ensures cancelTimer <==> gate == Started
    {
      cancelTimer := false;
      if pauseUntil.Some? && now < pauseUntil.value {
        gate := Paused;
        delay := if autoOn then Some(PausedRecheckMs) else None;
        return;
      }
      if pauseUntil.Some? && now >= pauseUntil.value {
        pauseUntil := None;
      }
      delay := None;
      if isPolling {
        gate := Busy;
        return;
      }
      isPolling := true;
      cancelTimer := true;
      gate := Started;
    }

    /** Both feeds fetched with retry (`Promise.allSettled`), a rejected
        one contributing nothing, merged city first. */
    method FetchBatch(cityAttempts: nat -> Attempt, nationAttempts: nat -> Attempt) returns (data: seq<Alert>)
      ensures data == Batch(cityAttempts, nationAttempts)
      ensures |data| == |SourceRecords(cityAttempts)| + |SourceRecords(nationAttempts)|
    {
      var loc, _, _ := FetchWithRetry(cityAttempts, MaxRetries);
      var nation, _, _ := FetchWithRetry(nationAttempts, MaxRetries);
      var locData := if loc.Fulfilled? then loc.records else [];
      var natData := if nation.Fulfilled? then nation.records else [];
      assert locData == SourceRecords(cityAttempts);
      assert natData == SourceRecords(nationAttempts);
      data := Merge(locData, natData);
    }

    /** The batch taken into the page: the default categories registered,
        the placeholder cleared, the batch deduplicated, the new alerts
        rendered and the log sorted. */
    method Ingest(data: seq<Alert>) returns (newAlerts: seq<Alert>)
      modifies this`seen, this`cats, this`log
      ensures (State(), newAlerts) == Ingested(old(State()), Config(), data)
    {
      ghost var l0 := State();
      RegisterDefaults();
      if |data| > 0 && EmptyState in log {
        log := [];
      }
      assert log == ClearPlaceholder(l0.log, data);
      newAlerts := DedupBatch(data);
      RenderNew(newAlerts);
      SortLogEntries();
      assert State() == l0.(seen := l0.seen + ValidKeys(data), cats := RegisterAll(l0.cats, DefaultCategories), log := log);
    }

    /** The bulk clear of the played set, then the arbitration. */
    method Alarm(now: nat, data: seq<Alert>) returns (sound: Option<Sound>)
      requires Valid()
      modifies this`played, this`pauseUntil
      ensures Valid()
      ensures (State(), sound) == Alarmed(old(State()), Config(), now, data)
    {
      ghost var l0 := State();
      if |played| > PlayedLimit {
        played := {};
      }
      var winner := Winner(data, Criteria(now, lookBackMs, cats, parse));
      sound := Arbitrate(now, winner);
      AlarmedBounds(l0, Config(), now, data);
    }

    /** The body of `poll` once started: the batch fetched and ingested, the
        alarm decided and the next poll scheduled. */
    method CompletePoll(now: nat, cityAttempts: nat -> Attempt, nationAttempts: nat -> Attempt) returns (out: CycleOutcome)
      requires Valid() && isPolling
      modifies this`seen, this`played, this`pauseUntil, this`isPolling, this`cats, this`log
      ensures Valid() && !isPolling
      ensures (State(), out) == CycleResult(old(State()), Config(), now, cityAttempts, nationAttempts)
    {
      ghost var l0 := State();
      var data := FetchBatch(cityAttempts, nationAttempts);
      var newAlerts := Ingest(data);
      var sound := Alarm(now, data);
      isPolling := false;
      out := CycleOutcome(true, newAlerts, sound, NextDelay(autoOn, pauseUntil, now, pollMs));
      CycleBounds(l0, Config(), now, cityAttempts, nationAttempts);
    }

    /** `poll` as one step: the guard, then the cycle if it started. */
    method Poll(now: nat, cityAttempts: nat -> Attempt, nationAttempts: nat -> Attempt) returns (gate: Gate, cancelTimer: bool, out: CycleOutcome)
      requires Valid()
      modifies this`seen, this`played, this`pauseUntil, this`isPolling, this`cats, this`log
      ensures Valid()
      ensures gate == Paused <==> old(PausedAt(now))
      ensures gate == Busy <==> !old(PausedAt(now)) && old(isPolling)
      ensures cancelTimer <==> gate == Started
      ensures gate == Paused ==>
        && out == CycleOutcome(false, [], None, if autoOn then Some(PausedRecheckMs) else None)
        && State() == old(State()) && isPolling == old(isPolling)
      ensures gate == Busy ==>
        && out == CycleOutcome(false, [], None, None)
        && State() == old(State()).(pauseUntil := None) && isPolling
      ensures gate == Started ==>
        && (State(), out) == CycleResult(old(State()).(pauseUntil := None), Config(), now, cityAttempts, nationAttempts)
        && !isPolling
    {
      var delay;
      gate, delay, cancelTimer := BeginPoll(now);
      if gate == Started {
        out := CompletePoll(now, cityAttempts, nationAttempts);
      } else {
        out := CycleOutcome(false, [], None, delay);
      }
    }

    /** The sort button: the direction flips and the log is re-sorted. */
    method ToggleSort()
      modifies this`sortDesc, this`log
      ensures sortDesc == !old(sortDesc)
      ensures log == SortLog(old(log), sortDesc)
    {
      sortDesc := !sortDesc;
      SortLogEntries();
    }

    /** The auto button: turning polling on polls at once, turning it off
        cancels the pending timer. */
    method ToggleAuto() returns (pollNow: bool, cancelTimer: bool)
      modifies this`autoOn
      ensures autoOn == !old(autoOn)
      ensures pollNow == autoOn && cancelTimer == !autoOn
    {
      autoOn := !autoOn;
      pollNow := autoOn;
      cancelTimer := !autoOn;
    }

    /** The stop-siren button lifts the pause at once. */
    method StopSiren()
      requires Valid()
      modifies this`pauseUntil
      ensures Valid()
      ensures pauseUntil == None
    {
      pauseUntil := None;
    }

    /** A check-box change: the category's state is set and every row of a
        registered category is re-styled. */
    method SetCategoryChecked(cat: int, checked: bool)
      requires cat in cats
      modifies this`cats, this`log
      ensures cats == old(cats)[cat := CategoryInfo(old(cats)[cat].desc, checked)]
      ensures |log| == |old(log)|
      ensures forall i :: 0 <= i < |log| ==> log[i] == Restyled(old(log)[i], cats)
    {
      cats := cats[cat := cats[cat].(checked := checked)];
      var i := 0;
      while i < |log|
        invariant 0 <= i <= |log| && |log| == |old(log)|
        invariant cats == old(cats)[cat := CategoryInfo(old(cats)[cat].desc, checked)]
        invariant forall j :: 0 <= j < i ==> log[j] == Restyled(old(log)[j], cats)
        invariant forall j :: i <= j < |log| ==> log[j] == old(log)[j]
      {
        log := log[i := Restyled(log[i], cats)];
        i := i + 1;
      }
    }

    /** The interval input: at least one second; a change polls at once when
        auto-polling is on. */
    method SetInterval(seconds: int) returns (pollNow: bool)
      modifies this`pollMs
      ensures pollMs == ClampSeconds(seconds) * 1000 && pollMs >= 1000
      ensures pollNow == autoOn
    {
      pollMs := ClampSeconds(seconds) * 1000;
      pollNow := autoOn;
    }

    /** The look-back input: at least one second. */
    method SetLookback(seconds: int)
      modifies this`lookBackMs
      ensures lookBackMs == ClampSeconds(seconds) * 1000 && lookBackMs >= 1000
    {
      lookBackMs := ClampSeconds(seconds) * 1000;
    }

    /** The state right after a reload: nothing seen or played, no pause,
        the placeholder alone in the log and only the default categories. */
    predicate Reloaded()
      reads this
    {
      && seen == {} && played == {} && pauseUntil == None && log == [EmptyState]
      && cats == RegisterAll(map[], DefaultCategories)
    }

    /** What both the range and the city handlers do before polling: the UI
        is reset and the default categories are registered again. */
    method Reload()
      modifies this`seen, this`cats, this`log, this`pauseUntil, this`played
      ensures Valid() && Reloaded()
    {
      ResetUI();
      RegisterDefaults();
    }

    /** The history-range selector: the range is taken, the UI reloaded and a
        poll follows. */
    method ChangeRange(range: string) returns (pollNow: bool)
      modifies this`histRange, this`seen, this`cats, this`log, this`pauseUntil, this`played
      ensures Valid() && Reloaded() && histRange == range
      ensures pollNow
    {
      histRange := range;
      Reload();
      pollNow := true;
    }

    /** The city input once trimmed: a blank city is ignored; otherwise it
        is taken, the UI reloaded and a poll follows. */
    method TakeCity(c: string) returns (pollNow: bool)
      requires Valid()
      modifies this`city, this`seen, this`cats, this`log, this`pauseUntil, this`played
      ensures Valid()
      ensures pollNow <==> c != ""
      ensures !pollNow ==> unchanged(this)
      ensures pollNow ==> city == c && Reloaded()
    {
      if c == "" {
        pollNow := false;
      } else {
        city := c;
        Reload();
        pollNow := true;
      }
    }

    /** The city input: `trim` is applied before anything else. */
    method ChangeCity(input: string) returns (pollNow: bool)
      requires Valid()
      modifies this`city, this`seen, this`cats, this`log, this`pauseUntil, this`played
      ensures Valid()
      ensures pollNow <==> Trim(input) != ""
      ensures !pollNow ==> unchanged(this)
      ensures pollNow ==> city == Trim(input) && Reloaded()
    {
      pollNow := TakeCity(Trim(input));
    }
  }
}
