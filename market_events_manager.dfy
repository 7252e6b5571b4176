/**
 * The bridge between the event engine and the rest of the game: it owns the
 * market and the engine, picks the day's events from a fixed pool, turns
 * engine events into published market events, and keeps the short list of
 * the day's events that the UI shows.
 */
module MarketEvents {
  import opened Text
  import opened Stocks
  import opened Markets
  import opened Engine
  import opened Events

  /** How many pool events are scheduled for a new day. */
  const EVENTS_PER_DAY: int := 3
  /** How many of the scheduled events are announced when the day is rolled. */
  const ANNOUNCED_AT_ROLL: int := 3
  /** Fired events are added to the day's list only while it is shorter than this. */
  const TODAYS_EVENTS_CAP: int := 5

  function Min(a: int, b: int): int
  {
    if a <= b then a else b
  }

  /** The six events every day is drawn from. */
  const DefaultPool: seq<EventDef> := [
    EventDef("Trade Dispute", "Tariffs escalate; demand weak", "iron", -8.0, 10000),
    EventDef("OPEC Guidance", "Production guidance due", "oil", 5.0, 10000),
    EventDef("Earnings Beat", "Strong results pre-market", "bhp", 4.0, 10000),
    EventDef("Pipeline Snag", "Throughput cut weighs on supply", "oil", -3.0, 10000),
    EventDef("China Stimulus", "Infrastructure push lifting steel", "iron", 6.0, 10000),
    EventDef("Mine Safety Audit", "Temporary halt; output risk", "bhp", -4.0, 10000)
  ]

  // ---------------------------------------------------------------- mapping

  /** The word `w` occurs somewhere in `t`, by position. */
  ghost predicate Mentions(t: string, w: string)
  {
    exists i :: OccursAt(t, w, i)
  }

  ghost predicate SupplyWords(t: string)
  {
    Mentions(t, "pipeline") || Mentions(t, "refinery") || Mentions(t, "throughput") || Mentions(t, "outage")
  }

  ghost predicate OpecSigns(t: string, code: string)
  {
    Mentions(t, "opec") || ToLower(code) == "oil"
  }

  ghost predicate RateWords(t: string)
  {
    Mentions(t, "rate") || Mentions(t, "hike")
  }

  ghost predicate EarningsWords(t: string)
  {
    Mentions(t, "earning") || Mentions(t, "beat")
  }

  /** The event type, from keywords of the lower-cased title, first matching rule wins. */
  function Classify(def: EventDef): (kind: string)
    ensures kind in {OIL_SUPPLY, OPEC, RATE_HIKE, EARNINGS, NEWS}
  {
    var t := ToLower(def.title);
    if Contains(t, "pipeline") || Contains(t, "refinery") || Contains(t, "throughput") || Contains(t, "outage") then
      OIL_SUPPLY
    else if Contains(t, "opec") || EqualsIgnoreCase(def.stockCode, "oil") then
      OPEC
    else if Contains(t, "rate") || Contains(t, "hike") then
      RATE_HIKE
    else if Contains(t, "earning") || Contains(t, "beat") then
      EARNINGS
    else
      NEWS
  }

  /**
   * The classification in terms of where the keywords occur: each type is
   * chosen exactly when its keywords are present and no earlier rule applies.
   */
  lemma ClassifyByMentions(def: EventDef)
    ensures var t := ToLower(def.title);
      && (Classify(def) == OIL_SUPPLY <==> SupplyWords(t))
      && (Classify(def) == OPEC <==> !SupplyWords(t) && OpecSigns(t, def.stockCode))
      && (Classify(def) == RATE_HIKE <==> !SupplyWords(t) && !OpecSigns(t, def.stockCode) && RateWords(t))
      && (Classify(def) == EARNINGS <==>
            !SupplyWords(t) && !OpecSigns(t, def.stockCode) && !RateWords(t) && EarningsWords(t))
      && (Classify(def) == NEWS <==>
            !SupplyWords(t) && !OpecSigns(t, def.stockCode) && !RateWords(t) && !EarningsWords(t))
  {
    var t := ToLower(def.title);
    ContainsIffOccurs(t, "pipeline");
    ContainsIffOccurs(t, "refinery");
    ContainsIffOccurs(t, "throughput");
    ContainsIffOccurs(t, "outage");
    ContainsIffOccurs(t, "opec");
    ContainsIffOccurs(t, "rate");
    ContainsIffOccurs(t, "hike");
    ContainsIffOccurs(t, "earning");
    ContainsIffOccurs(t, "beat");
  }

  /** "+" for a non-negative shift; a negative one carries its own minus sign. */
  function SignPrefix(x: real): string
  {
    if x >= 0.0 then "+" else ""
  }

  /** The detail line of a published event: "title (CODE, +x.xx%)", a negative shift showing its minus sign. */
  function Detail(def: EventDef): string
  {
    def.title + " (" + ToUpper(def.stockCode) + ", " + SignPrefix(def.shiftPct) + FormatFixed2(def.shiftPct) + "%)"
  }

  /** The published form of an event definition: its type, the GLOBAL country, and the detail line. */
  function MapToMarketEvent(def: EventDef): (e: MarketEvent)
    ensures e.kind == Classify(def) && e.country == GLOBAL && e.detail == Detail(def)
  {
    MarketEvent(Classify(def), GLOBAL, Detail(def))
  }

  /**
   * Where things sit in the detail line: the title, the upper-cased code,
   * a sign that is '+' exactly for a non-negative shift and '-' exactly
   * for a negative one, two decimals, and the closing "%)".
   */
  lemma DetailLayout(def: EventDef)
    ensures var d, n, c := Detail(def), |def.title|, |def.stockCode|;
      && |d| >= n + c + 10
      && d[..n] == def.title
      && d[n..n + 2] == " ("
      && d[n + 2..n + 2 + c] == ToUpper(def.stockCode)
      && d[n + 2 + c..n + 4 + c] == ", "
      && (d[n + 4 + c] == '+' <==> def.shiftPct >= 0.0)
      && (d[n + 4 + c] == '-' <==> def.shiftPct < 0.0)
      && d[|d| - 5] == '.'
      && d[|d| - 2..] == "%)"
  {
    var d := Detail(def);
    assert d[|def.title| + 4 + |def.stockCode|..] == SignPrefix(def.shiftPct) + FormatFixed2(def.shiftPct) + "%)";
  }

  // -------------------------------------------------------- day's schedule

  /** The key under which an active engine event is remembered between syncs (code as written). */
  function RawKey(def: EventDef): string
  {
    def.stockCode + "|" + def.title
  }

  /** The raw keys of a run of active events. */
  function RawKeys(a: seq<ActiveEvent>): (r: set<string>)
  {
    if |a| == 0 then {} else RawKeys(a[..|a| - 1]) + {RawKey(a[|a| - 1].def)}
  }

  /** A key is among the raw keys exactly when some event of the run has it. */
  lemma {:induction false} RawKeysOfEvents(a: seq<ActiveEvent>)
    ensures forall k :: k in RawKeys(a) <==> exists i :: 0 <= i < |a| && RawKey(a[i].def) == k
    decreases |a|
  {
    if |a| > 0 {
      var p := a[..|a| - 1];
      RawKeysOfEvents(p);
      assert forall i :: 0 <= i < |p| ==> p[i] == a[i];
    }
  }

  /** The announcements for the active events whose key was not live, in engine order. */
  function NewEvents(a: seq<ActiveEvent>, live: set<string>): seq<MarketEvent>
  {
    if |a| == 0 then []
    else NewEvents(a[..|a| - 1], live) + NewTail(a[|a| - 1], live)
  }

  /** Appending `ys` to `xs` one by one, each only while the list is shorter than `cap`. */
  function CappedAppend(xs: seq<MarketEvent>, ys: seq<MarketEvent>, cap: int): seq<MarketEvent>
  {
    if |ys| == 0 then xs
    else
      var p := CappedAppend(xs, ys[..|ys| - 1], cap);
      if |p| < cap then p + [ys[|ys| - 1]] else p
  }

  /** The capped appends keep `xs` and add exactly the first of `ys` that still fit. */
  lemma {:induction false} CappedAppendKeepsFirst(xs: seq<MarketEvent>, ys: seq<MarketEvent>, cap: int)
    ensures var room := if cap - |xs| < 0 then 0 else cap - |xs|;
      CappedAppend(xs, ys, cap) == xs + ys[..Min(|ys|, room)]
    decreases |ys|
  {
    if |ys| > 0 {
      var p := ys[..|ys| - 1];
      CappedAppendKeepsFirst(xs, p, cap);
      var room := if cap - |xs| < 0 then 0 else cap - |xs|;
      assert p[..Min(|p|, room)] == ys[..Min(|p|, room)];
      if |p| < room {
        assert ys[..Min(|p|, room)] + [ys[|ys| - 1]] == ys[..Min(|ys|, room)];
      }
    }
  }

  /** The sync step: one more active event adds its announcement exactly when its key was not live. */
  lemma NewEventsStep(a: seq<ActiveEvent>, live: set<string>)
    requires |a| > 0
    ensures NewEvents(a, live) == NewEvents(a[..|a| - 1], live) + NewTail(a[|a| - 1], live)
  {
  }

  function NewTail(x: ActiveEvent, live: set<string>): seq<MarketEvent>
  {
    if RawKey(x.def) in live then [] else [MapToMarketEvent(x.def)]
  }

  /** Every announcement belongs to an active event whose key was not live. */
  lemma {:induction false} AnnouncedOnlyIfNew(a: seq<ActiveEvent>, live: set<string>, e: MarketEvent)
    requires e in NewEvents(a, live)
    ensures exists i :: 0 <= i < |a| && RawKey(a[i].def) !in live && e == MapToMarketEvent(a[i].def)
    decreases |a|
  {
    var p := a[..|a| - 1];
    NewEventsStep(a, live);
    if e in NewEvents(p, live) {
      AnnouncedOnlyIfNew(p, live, e);
      var i :| 0 <= i < |p| && RawKey(p[i].def) !in live && e == MapToMarketEvent(p[i].def);
      assert a[i] == p[i];
    } else {
      assert e in NewTail(a[|a| - 1], live);
      assert RawKey(a[|a| - 1].def) !in live && e == MapToMarketEvent(a[|a| - 1].def);
    }
  }

  /** Every active event whose key was not live is announced. */
  lemma {:induction false} NewIsAnnounced(a: seq<ActiveEvent>, live: set<string>, i: int)
    requires 0 <= i < |a| && RawKey(a[i].def) !in live
    ensures MapToMarketEvent(a[i].def) in NewEvents(a, live)
    decreases |a|
  {
    var p := a[..|a| - 1];
    NewEventsStep(a, live);
    if i < |p| {
      assert p[i] == a[i];
      NewIsAnnounced(p, live, i);
    } else {
      assert NewTail(a[i], live) == [MapToMarketEvent(a[i].def)];
    }
  }

  /** Nothing is announced for events whose keys are all live: a repeated sync is silent. */
  lemma {:induction false} NothingNewWhenLive(a: seq<ActiveEvent>, live: set<string>)
    requires RawKeys(a) <= live
    ensures NewEvents(a, live) == []
    decreases |a|
  {
    if |a| > 0 {
      NothingNewWhenLive(a[..|a| - 1], live);
    }
  }

  /**
   * Today's definitions, a prefix of a shuffle of the pool, are as many as
   * asked for or the whole pool, and never repeat a pool entry more often
   * than the pool does.
   */
  lemma PrefixWithinPool(shuffled: seq<EventDef>, pool: seq<EventDef>, n: int)
    requires 0 <= n
    requires multiset(shuffled) == multiset(pool)
    ensures |shuffled[..Min(n, |shuffled|)]| == Min(n, |pool|)
    ensures multiset(shuffled[..Min(n, |shuffled|)]) <= multiset(pool)
  {
    assert |shuffled| == |multiset(shuffled)| == |pool|;
    var k := Min(n, |shuffled|);
    assert shuffled == shuffled[..k] + shuffled[k..];
  }

  /** The announcements of a roll: the first `k` definitions, mapped, in order. */
  method AnnounceFirst(defs: seq<EventDef>, k: int) returns (events: seq<MarketEvent>)
    requires 0 <= k <= |defs|
    ensures |events| == k
    ensures forall j :: 0 <= j < k ==> events[j] == MapToMarketEvent(defs[j])
  {
    events := [];
    var i := 0;
    while i < k
      invariant 0 <= i <= k
      invariant |events| == i
      invariant forall j :: 0 <= j < i ==> events[j] == MapToMarketEvent(defs[j])
    {
      events := events + [MapToMarketEvent(defs[i])];
      i := i + 1;
    }
  }

  /**
   * One pass of the sync over the active events: the keys seen, the
   * announcements for keys not in `live`, and the day's list after each
   * announcement was added while the list was shorter than the cap.
   */
  method ScanActive(active: seq<ActiveEvent>, live: set<string>, todays: seq<MarketEvent>)
    returns (now: set<string>, announced: seq<MarketEvent>, todays': seq<MarketEvent>)
    ensures now == RawKeys(active)
    ensures announced == NewEvents(active, live)
    ensures todays' == CappedAppend(todays, announced, TODAYS_EVENTS_CAP)
  {
    now, announced, todays' := {}, [], todays;
    var i := 0;
    while i < |active|
      invariant 0 <= i <= |active|
      invariant now == RawKeys(active[..i])
      invariant announced == NewEvents(active[..i], live)
      invariant todays' == CappedAppend(todays, announced, TODAYS_EVENTS_CAP)
    {
      var def := active[i].def;
      var key := RawKey(def);
      assert active[..i + 1][..i] == active[..i];
      NewEventsStep(active[..i + 1], live);
      now := now + {key};
      if key !in live {
        var evt := MapToMarketEvent(def);
        ghost var before := announced;
        announced := announced + [evt];
        if |todays'| < TODAYS_EVENTS_CAP {
          todays' := todays' + [evt];
        }
        assert announced[..|before|] == before;
      }
      i := i + 1;
    }
    assert active[..|active|] == active;
  }

  /** The three base stocks, iron at 12.00, oil at 75.00 and bhp at 24.00, none shifted. */
  method BaseMarket() returns (m: Market)
    ensures fresh(m) && m.Valid()
    ensures |m.list| == 3
    ensures m.list[0].code == "iron" && m.list[0].price == 12.0
    ensures m.list[1].code == "oil" && m.list[1].price == 75.0
    ensures m.list[2].code == "bhp" && m.list[2].price == 24.0
    ensures forall i :: 0 <= i < 3 ==> m.list[i].shiftPct == 0.0
  {
    m := new Market();
    var iron := new Stock("iron", 12.0);
    var oil := new Stock("oil", 75.0);
    var bhp := new Stock("bhp", 24.0);
    m.Add(iron);
    m.Add(oil);
    m.Add(bhp);
  }

  class MarketEventsManager {
    const market: Market
    const engine: EventEngine
    const pool: seq<EventDef>
    /** Raw keys of the engine's active events as of the last sync. */
    var liveKeys: set<string>
    /** The day's list shown to the player. */
    var todaysEvents: seq<MarketEvent>
    /** Every event handed to the event bus, in order. */
    var published: seq<MarketEvent>

    ghost predicate Valid()
      reads this, engine, market, market.byCode.Values
    {
      engine.market == market && engine.Valid()
    }

    /** Three stocks (iron 12.00, oil 75.00, bhp 24.00) and an engine with no events yet. */
    constructor ()
      ensures Valid()
      ensures pool == DefaultPool
      ensures |market.list| == 3
      ensures market.list[0].code == "iron" && market.list[0].price == 12.0
      ensures market.list[1].code == "oil" && market.list[1].price == 75.0
      ensures market.list[2].code == "bhp" && market.list[2].price == 24.0
      ensures forall i :: 0 <= i < 3 ==> market.list[i].shiftPct == 0.0
      ensures engine.eventDefs == [] && engine.day == FreshDay
      ensures liveKeys == {} && todaysEvents == [] && published == []
    {
      var m := BaseMarket();
      market := m;
      engine := new EventEngine(m, []);
      pool := DefaultPool;
      liveKeys := {};
      todaysEvents := [];
      published := [];
    }

    /**
     * Hands the engine the first `n` of the shuffled pool and announces the
     * first three of them, replacing the day's list.
     */
    method RollToday(n: int, shuffled: seq<EventDef>)
      requires Valid()
      requires 0 <= n
      requires multiset(shuffled) == multiset(pool)
      modifies this, engine`eventDefs
      ensures Valid()
      ensures engine.eventDefs == shuffled[..Min(n, |shuffled|)]
      ensures |engine.eventDefs| == Min(n, |pool|)
      ensures multiset(engine.eventDefs) <= multiset(pool)
      ensures |todaysEvents| == Min(ANNOUNCED_AT_ROLL, |engine.eventDefs|)
      ensures forall i :: 0 <= i < |todaysEvents| ==> todaysEvents[i] == MapToMarketEvent(engine.eventDefs[i])
      ensures published == old(published) + todaysEvents
      ensures liveKeys == old(liveKeys) && engine.day == old(engine.day)
    {
      var todaysDefs := shuffled[..Min(n, |shuffled|)];
      PrefixWithinPool(shuffled, pool, n);
      engine.SetEventDefs(todaysDefs);
      todaysEvents := AnnounceFirst(todaysDefs, Min(ANNOUNCED_AT_ROLL, |todaysDefs|));
      published := published + todaysEvents;
    }

    /**
     * Announces every active engine event whose key was not live at the
     * previous sync, adds it to the day's list while that holds fewer than
     * five, and then remembers exactly the current keys.
     */
    method SyncFromEngine()
      requires Valid()
      modifies this
      ensures Valid()
      ensures liveKeys == RawKeys(engine.day.activeEvents)
      ensures published == old(published) + NewEvents(engine.day.activeEvents, old(liveKeys))
      ensures todaysEvents ==
                CappedAppend(old(todaysEvents), NewEvents(engine.day.activeEvents, old(liveKeys)), TODAYS_EVENTS_CAP)
    {
      var active := engine.ActiveEvents();
      var now, announced, todays := ScanActive(active, liveKeys, todaysEvents);
      published := published + announced;
      todaysEvents := todays;
      liveKeys := now;
    }

    /** The day rollover: the engine reverts and clears the day, then three new events are rolled. */
    method NextDay(shuffled: seq<EventDef>)
      requires Valid()
      requires multiset(shuffled) == multiset(pool)
      modifies this, engine, market.byCode.Values
      ensures Valid()
      ensures engine.day == FreshDay && engine.fireTimes == [] && engine.baseline == old(engine.baseline)
      ensures engine.notices == old(engine.notices) + EndedNotices(old(engine.day.activeEvents)) + [Refreshed]
      ensures forall s :: s in market.byCode.Values ==> s.code in engine.baseline && s.shiftPct == engine.baseline[s.code]
      ensures engine.eventDefs == shuffled[..Min(EVENTS_PER_DAY, |shuffled|)]
      ensures |engine.eventDefs| == Min(EVENTS_PER_DAY, |pool|)
      ensures |todaysEvents| == Min(ANNOUNCED_AT_ROLL, |engine.eventDefs|)
      ensures forall i :: 0 <= i < |todaysEvents| ==> todaysEvents[i] == MapToMarketEvent(engine.eventDefs[i])
      ensures published == old(published) + todaysEvents
      ensures liveKeys == old(liveKeys)
    {
      engine.ResetDaily();
      RollToday(EVENTS_PER_DAY, shuffled);
    }
  }
}
