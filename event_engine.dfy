/**
 * The market-event scheduler. On every tick it decides, under a daily cap,
 * a global gap, a chance roll, a per-identity daily cap and a per-stock
 * cooldown, whether one event from its pool fires; a fire adds the event's
 * shift to its stock and stays active until the end-of-day reset, which
 * reverts every active shift and clears all bookkeeping.
 *
 * The clock reading, the dice roll and the shuffle of the pool are inputs;
 * the log, toast and refresh callbacks are recorded as a trace of notices.
 */
module Engine {
  import opened Text
  import opened Stocks
  import opened Markets

  const TICK_MS: int := 6000
  const CHANCE_PCT: int := 20
  const MAX_EVENTS_PER_DAY: int := 4
  const MIN_GAP_BETWEEN_TRIGGERS_MS: int := 90000
  const PER_STOCK_COOLDOWN_MS: int := 180000
  const PER_EVENT_MAX_PER_DAY: int := 1

  /** Long.MAX_VALUE, the "lasts until end of day" marker. */
  const LONG_MAX_VALUE: int := 0x7FFF_FFFF_FFFF_FFFF

  /** An event template; `durationMs` is carried but never used to expire anything. */
  datatype EventDef = EventDef(title: string, description: string, stockCode: string,
                               shiftPct: real, durationMs: int)

  datatype ActiveEvent = ActiveEvent(def: EventDef, endsAtMillis: int, effectReverted: bool)

  /** One call into the log, toast or refresh callback. */
  datatype Notice =
    | EventLogged(def: EventDef)
    | Toasted(def: EventDef)
    | Refreshed
    | SkippedUnknownStock(def: EventDef)
    | EndedAtEod(def: EventDef)

  /** Where a tick stopped. */
  datatype TickOutcome =
    | EmptyPool
    | DailyCapReached
    | TooSoon
    | ChanceMissed
    | NoCandidate
    | Fired(def: EventDef)

  /** Cooldown key: the lower-cased stock code. */
  function StockKey(d: EventDef): string
  {
    ToLower(d.stockCode)
  }

  /** Identity key: lower-cased stock code, a bar, and the title as written. */
  function IdentityKey(d: EventDef): string
  {
    StockKey(d) + "|" + d.title
  }

  /** Map.getOrDefault. */
  function GetOrDefault<K, V>(m: map<K, V>, k: K, d: V): (r: V)
    ensures k in m ==> r == m[k]
    ensures k !in m ==> r == d
  {
    if k in m then m[k] else d
  }

  /**
   * The engine's per-day bookkeeping: the active list, the set of active
   * identity keys, last fire per lower-cased stock code, fires per identity
   * key, the time of the last fire and the number of fires today.
   */
  datatype Day = Day(activeEvents: seq<ActiveEvent>, activeKeys: set<string>,
                     lastStockTriggerAt: map<string, int>, perEventCountToday: map<string, int>,
                     lastAnyTriggerAt: int, eventsToday: int)

  /** The bookkeeping of a new engine, and after every end-of-day reset. */
  const FreshDay: Day := Day([], {}, map[], map[], 0, 0)

  /** The three per-candidate checks of the scan that consult the bookkeeping. */
  predicate Open(d: Day, ev: EventDef, now: int)
  {
    && IdentityKey(ev) !in d.activeKeys
    && GetOrDefault(d.perEventCountToday, IdentityKey(ev), 0) < PER_EVENT_MAX_PER_DAY
    && now - GetOrDefault(d.lastStockTriggerAt, StockKey(ev), 0) >= PER_STOCK_COOLDOWN_MS
  }

  /**
   * A candidate passes all four per-candidate checks of the scan: the three
   * bookkeeping ones, and its stock code is one the market indexes (`codes`).
   */
  predicate Eligible(d: Day, codes: set<string>, ev: EventDef, now: int)
  {
    Open(d, ev, now) && ev.stockCode in codes
  }

  /**
   * The bookkeeping half of a fire of `ev` at `now`: the event is recorded
   * as lasting until end of day, and the four counters move.
   */
  function Fire(d: Day, ev: EventDef, now: int): (r: Day)
    ensures |r.activeEvents| == |d.activeEvents| + 1
    ensures r.activeEvents[..|d.activeEvents|] == d.activeEvents
    ensures r.activeEvents[|d.activeEvents|] == ActiveEvent(ev, LONG_MAX_VALUE, false)
    ensures r.activeKeys == d.activeKeys + {IdentityKey(ev)}
    ensures r.eventsToday == d.eventsToday + 1
    ensures r.lastAnyTriggerAt == now
    ensures r.lastStockTriggerAt.Keys == d.lastStockTriggerAt.Keys + {StockKey(ev)}
    ensures r.lastStockTriggerAt[StockKey(ev)] == now
    ensures forall k :: k in d.lastStockTriggerAt && k != StockKey(ev) ==>
              r.lastStockTriggerAt[k] == d.lastStockTriggerAt[k]
    ensures r.perEventCountToday.Keys == d.perEventCountToday.Keys + {IdentityKey(ev)}
    ensures r.perEventCountToday[IdentityKey(ev)] == GetOrDefault(d.perEventCountToday, IdentityKey(ev), 0) + 1
    ensures forall k :: k in d.perEventCountToday && k != IdentityKey(ev) ==>
              r.perEventCountToday[k] == d.perEventCountToday[k]
  {
    var stock := ToLower(ev.stockCode);
    var key := stock + "|" + ev.title;
    d.(activeEvents := d.activeEvents + [ActiveEvent(ev, LONG_MAX_VALUE, false)],
       activeKeys := d.activeKeys + {key},
       eventsToday := d.eventsToday + 1,
       lastAnyTriggerAt := now,
       lastStockTriggerAt := d.lastStockTriggerAt[stock := now],
       perEventCountToday := d.perEventCountToday[key := GetOrDefault(d.perEventCountToday, key, 0) + 1])
  }

  ghost function IdentityKeys(a: seq<ActiveEvent>): set<string>
  {
    if a == [] then {} else IdentityKeys(a[..|a| - 1]) + {IdentityKey(a[|a| - 1].def)}
  }

  ghost function StockKeys(a: seq<ActiveEvent>): set<string>
  {
    if a == [] then {} else StockKeys(a[..|a| - 1]) + {StockKey(a[|a| - 1].def)}
  }

  /** No two events of `a` share an identity key. */
  ghost predicate DistinctIdentities(a: seq<ActiveEvent>)
  {
    forall i, j :: 0 <= i < j < |a| ==> IdentityKey(a[i].def) != IdentityKey(a[j].def)
  }

  /** Any two fires of the day are at least the global gap apart. */
  ghost predicate GapsRespected(times: seq<int>)
  {
    forall i, j :: 0 <= i < j < |times| ==> times[j] - times[i] >= MIN_GAP_BETWEEN_TRIGGERS_MS
  }

  /** Any two fires of the day on one lower-cased stock code are a cooldown apart. */
  ghost predicate CooldownsRespected(a: seq<ActiveEvent>, times: seq<int>)
    requires |times| == |a|
  {
    forall i, j :: 0 <= i < j < |a| && StockKey(a[i].def) == StockKey(a[j].def) ==>
      times[j] - times[i] >= PER_STOCK_COOLDOWN_MS
  }

  /** Each event, when it was added, had an identity key not yet active. */
  ghost predicate AddedFresh(a: seq<ActiveEvent>)
  {
    a == [] || (AddedFresh(a[..|a| - 1]) && IdentityKey(a[|a| - 1].def) !in IdentityKeys(a[..|a| - 1]))
  }

  /** Each fire came at least the global gap after the one before it. */
  ghost predicate AddedSpaced(times: seq<int>)
  {
    |times| <= 1 ||
    (AddedSpaced(times[..|times| - 1]) && times[|times| - 1] - times[|times| - 2] >= MIN_GAP_BETWEEN_TRIGGERS_MS)
  }

  /** Each fire came at least the cooldown after every earlier fire on its stock. */
  ghost predicate AddedCooledDown(a: seq<ActiveEvent>, times: seq<int>)
    requires |times| == |a|
  {
    a == [] ||
    (AddedCooledDown(a[..|a| - 1], times[..|a| - 1]) &&
     forall i :: 0 <= i < |a| - 1 && StockKey(a[i].def) == StockKey(a[|a| - 1].def) ==>
       times[|a| - 1] - times[i] >= PER_STOCK_COOLDOWN_MS)
  }

  /**
   * The counters describe the active list: one fire per active event,
   * capped per day; one identity key per event, each fired once; every
   * event lasting until end of day.
   */
  ghost predicate CountersOk(d: Day)
  {
    && d.eventsToday == |d.activeEvents| <= MAX_EVENTS_PER_DAY
    && d.activeKeys == IdentityKeys(d.activeEvents)
    && AddedFresh(d.activeEvents)
    && d.perEventCountToday.Keys == d.activeKeys
    && (forall k :: k in d.perEventCountToday ==> d.perEventCountToday[k] == PER_EVENT_MAX_PER_DAY)
    && (forall i :: 0 <= i < |d.activeEvents| ==>
          d.activeEvents[i].endsAtMillis == LONG_MAX_VALUE && !d.activeEvents[i].effectReverted)
  }

  /**
   * The i-th active event fired at `times[i]`: the last-fire stamps bound
   * every fire, and fires are spaced by the gap and, per stock, by the cooldown.
   */
  ghost predicate TimesOk(d: Day, times: seq<int>)
  {
    && |times| == |d.activeEvents|
    && d.lastStockTriggerAt.Keys == StockKeys(d.activeEvents)
    && (|times| == 0 ==> d.lastAnyTriggerAt == 0)
    && (|times| > 0 ==> d.lastAnyTriggerAt == times[|times| - 1])
    && (forall i :: 0 <= i < |times| ==> times[i] <= d.lastAnyTriggerAt)
    && (forall i :: 0 <= i < |times| ==>
          StockKey(d.activeEvents[i].def) in d.lastStockTriggerAt &&
          times[i] <= d.lastStockTriggerAt[StockKey(d.activeEvents[i].def)])
    && AddedSpaced(times)
    && AddedCooledDown(d.activeEvents, times)
  }

  ghost predicate DayOk(d: Day, times: seq<int>)
  {
    CountersOk(d) && TimesOk(d, times)
  }

  lemma AppendKeys(a: seq<ActiveEvent>, x: ActiveEvent)
    ensures IdentityKeys(a + [x]) == IdentityKeys(a) + {IdentityKey(x.def)}
    ensures StockKeys(a + [x]) == StockKeys(a) + {StockKey(x.def)}
  {
    assert (a + [x])[..|a|] == a;
  }

  /** The key sets hold exactly the keys of the listed events. */
  lemma {:induction false} KeysOfEvents(a: seq<ActiveEvent>)
    ensures forall k :: k in IdentityKeys(a) <==> exists i :: 0 <= i < |a| && IdentityKey(a[i].def) == k
    ensures forall k :: k in StockKeys(a) <==> exists i :: 0 <= i < |a| && StockKey(a[i].def) == k
    decreases |a|
  {
    if a != [] {
      var p := a[..|a| - 1];
      KeysOfEvents(p);
      assert forall i :: 0 <= i < |p| ==> p[i] == a[i];
    }
  }

  lemma {:induction false} AddedFreshIsDistinct(a: seq<ActiveEvent>)
    requires AddedFresh(a)
    ensures DistinctIdentities(a)
    decreases |a|
  {
    if a != [] {
      var p := a[..|a| - 1];
      AddedFreshIsDistinct(p);
      KeysOfEvents(p);
      forall i, j | 0 <= i < j < |a| ensures IdentityKey(a[i].def) != IdentityKey(a[j].def) {
        if j < |p| {
          assert a[i] == p[i] && a[j] == p[j];
        } else {
          assert a[i] == p[i];
        }
      }
    }
  }

  lemma {:induction false} AddedSpacedIsGapped(times: seq<int>)
    requires AddedSpaced(times)
    ensures GapsRespected(times)
    decreases |times|
  {
    if |times| > 1 {
      var p := times[..|times| - 1];
      AddedSpacedIsGapped(p);
      assert forall i :: 0 <= i < |p| ==> p[i] == times[i];
      forall i, j | 0 <= i < j < |times| ensures times[j] - times[i] >= MIN_GAP_BETWEEN_TRIGGERS_MS {
        if j < |p| {
          assert p[j] - p[i] >= MIN_GAP_BETWEEN_TRIGGERS_MS;
        } else if i < |p| - 1 {
          assert p[|p| - 1] - p[i] >= MIN_GAP_BETWEEN_TRIGGERS_MS;
        }
      }
    }
  }

  lemma {:induction false} AddedCooledDownIsCooled(a: seq<ActiveEvent>, times: seq<int>)
    requires |times| == |a|
    requires AddedCooledDown(a, times)
    ensures CooldownsRespected(a, times)
    decreases |a|
  {
    if a != [] {
      var p, tp := a[..|a| - 1], times[..|a| - 1];
      AddedCooledDownIsCooled(p, tp);
      assert forall i :: 0 <= i < |p| ==> p[i] == a[i] && tp[i] == times[i];
    }
  }

  /**
   * The day-level guarantees: between resets at most four events are
   * active, none twice, any two fires are at least the global gap apart and
   * any two fires on one lower-cased stock code at least the cooldown.
   */
  lemma DayGuarantees(d: Day, times: seq<int>)
    requires DayOk(d, times)
    ensures |d.activeEvents| <= MAX_EVENTS_PER_DAY
    ensures DistinctIdentities(d.activeEvents)
    ensures GapsRespected(times)
    ensures CooldownsRespected(d.activeEvents, times)
  {
    AddedFreshIsDistinct(d.activeEvents);
    AddedSpacedIsGapped(times);
    AddedCooledDownIsCooled(d.activeEvents, times);
  }

  /** The reset state is consistent. */
  lemma FreshDayOk()
    ensures DayOk(FreshDay, [])
  {
  }

  /** A fire that passed the daily cap and the identity check keeps the counters consistent. */
  lemma FireKeepsCounters(d: Day, ev: EventDef, now: int)
    requires CountersOk(d)
    requires d.eventsToday < MAX_EVENTS_PER_DAY
    requires IdentityKey(ev) !in d.activeKeys
    ensures CountersOk(Fire(d, ev, now))
  {
    var x := ActiveEvent(ev, LONG_MAX_VALUE, false);
    var a := Fire(d, ev, now).activeEvents;
    AppendKeys(d.activeEvents, x);
    assert a == d.activeEvents + [x];
    assert a[..|a| - 1] == d.activeEvents;
  }

  /** A fire that passed the gap and the cooldown keeps the fire times consistent. */
  lemma {:induction false} FireKeepsTimes(d: Day, times: seq<int>, ev: EventDef, now: int)
    requires TimesOk(d, times)
    requires now - d.lastAnyTriggerAt >= MIN_GAP_BETWEEN_TRIGGERS_MS
    requires now - GetOrDefault(d.lastStockTriggerAt, StockKey(ev), 0) >= PER_STOCK_COOLDOWN_MS
    ensures TimesOk(Fire(d, ev, now), times + [now])
  {
    var x := ActiveEvent(ev, LONG_MAX_VALUE, false);
    var r := Fire(d, ev, now);
    AppendKeys(d.activeEvents, x);
    var a, t := r.activeEvents, times + [now];
    assert a == d.activeEvents + [x];
    assert a[..|a| - 1] == d.activeEvents && t[..|a| - 1] == times;
    assert forall i :: 0 <= i < |d.activeEvents| ==> a[i] == d.activeEvents[i] && t[i] == times[i];
    forall i | 0 <= i < |a| - 1 && StockKey(a[i].def) == StockKey(a[|a| - 1].def)
      ensures t[|a| - 1] - t[i] >= PER_STOCK_COOLDOWN_MS
    {
      assert StockKey(d.activeEvents[i].def) == StockKey(ev);
    }
  }

  /** A fire that passed the gates of the tick and the scan keeps the bookkeeping consistent. */
  lemma FireKeepsDay(d: Day, times: seq<int>, ev: EventDef, now: int)
    requires DayOk(d, times)
    requires d.eventsToday < MAX_EVENTS_PER_DAY
    requires now - d.lastAnyTriggerAt >= MIN_GAP_BETWEEN_TRIGGERS_MS
    requires IdentityKey(ev) !in d.activeKeys
    requires now - GetOrDefault(d.lastStockTriggerAt, StockKey(ev), 0) >= PER_STOCK_COOLDOWN_MS
    ensures DayOk(Fire(d, ev, now), times + [now])
  {
    FireKeepsCounters(d, ev, now);
    FireKeepsTimes(d, times, ev, now);
  }

  /**
   * After a fire, the same identity cannot pass the scan again today, and
   * no event on the same lower-cased stock code can within the cooldown.
   */
  lemma FireCloses(d: Day, ev: EventDef, now: int, other: EventDef, later: int)
    ensures !Open(Fire(d, ev, now), ev, later)
    ensures StockKey(other) == StockKey(ev) && later - now < PER_STOCK_COOLDOWN_MS ==> !Open(Fire(d, ev, now), other, later)
  {
  }

  /** What one event contributes to the shift of the stock with raw code `code`. */
  function Contribution(x: ActiveEvent, code: string): real
  {
    if x.def.stockCode == code then x.def.shiftPct else 0.0
  }

  /** Net shift the events of `a` put on the stock whose raw code is `code`. */
  function ShiftSum(a: seq<ActiveEvent>, code: string): real
  {
    if a == [] then 0.0
    else ShiftSum(a[..|a| - 1], code) + Contribution(a[|a| - 1], code)
  }

  lemma AppendShift(a: seq<ActiveEvent>, x: ActiveEvent, code: string)
    ensures ShiftSum(a + [x], code) == ShiftSum(a, code) + Contribution(x, code)
  {
    assert (a + [x])[..|a|] == a;
  }

  lemma {:induction false} ShiftSumAppend(a: seq<ActiveEvent>, b: seq<ActiveEvent>, code: string)
    ensures ShiftSum(a + b, code) == ShiftSum(a, code) + ShiftSum(b, code)
    decreases |b|
  {
    if b == [] {
      assert a + b == a;
    } else {
      var b' := b[..|b| - 1];
      assert (a + b)[..|a + b| - 1] == a + b';
      ShiftSumAppend(a, b', code);
    }
  }

  /** Taking the k-th event out of a list takes exactly its contribution out of the sum. */
  lemma ShiftSumWithout(b: seq<ActiveEvent>, k: int, code: string)
    requires 0 <= k < |b|
    ensures ShiftSum(b, code) == ShiftSum(b[..k] + b[k + 1..], code) + Contribution(b[k], code)
  {
    assert b == b[..k] + ([b[k]] + b[k + 1..]);
    ShiftSumAppend(b[..k], [b[k]] + b[k + 1..], code);
    ShiftSumAppend([b[k]], b[k + 1..], code);
    ShiftSumAppend(b[..k], b[k + 1..], code);
    assert [b[k]] == [] + [b[k]];
    AppendShift([], b[k], code);
  }

  /** Removing the k-th element of `b` removes one occurrence of it from the multiset. */
  lemma MultisetWithout(b: seq<ActiveEvent>, k: int)
    requires 0 <= k < |b|
    ensures multiset(b[..k] + b[k + 1..]) == multiset(b) - multiset{b[k]}
  {
    assert b == b[..k] + [b[k]] + b[k + 1..];
  }

  /** The order in which shifts are applied or reverted does not change their net effect. */
  lemma {:induction false} ShiftSumPermutation(a: seq<ActiveEvent>, b: seq<ActiveEvent>, code: string)
    requires multiset(a) == multiset(b)
    ensures ShiftSum(a, code) == ShiftSum(b, code)
    decreases |a|
  {
    if a == [] {
      assert |b| == |multiset(b)| == 0;
    } else {
      var x := a[|a| - 1];
      var a' := a[..|a| - 1];
      assert a == a' + [x];
      assert multiset(a') == multiset(a) - multiset{x};
      assert x in multiset(b);
      var k :| 0 <= k < |b| && b[k] == x;
      MultisetWithout(b, k);
      ShiftSumPermutation(a', b[..k] + b[k + 1..], code);
      ShiftSumWithout(b, k, code);
      AppendShift(a', x, code);
    }
  }

  /** The log lines the end-of-day reset writes, one per active event, in order. */
  function EndedNotices(a: seq<ActiveEvent>): (r: seq<Notice>)
    ensures |r| == |a|
    ensures forall i :: 0 <= i < |a| ==> r[i] == EndedAtEod(a[i].def)
  {
    if a == [] then [] else EndedNotices(a[..|a| - 1]) + [EndedAtEod(a[|a| - 1].def)]
  }

  /** Every indexed stock's shift is its day-start value plus what the events of `a` added. */
  ghost predicate Accounted(market: Market, baseline: map<string, real>, a: seq<ActiveEvent>)
    reads market, market.byCode.Values
  {
    forall s :: s in market.byCode.Values ==>
      s.code in baseline && s.shiftPct == baseline[s.code] + ShiftSum(a, s.code)
  }

  /** The effect half of a fire: the event's shift goes onto the stock its code resolves to. */
  method ShiftForEvent(market: Market, ghost baseline: map<string, real>, ghost a: seq<ActiveEvent>,
                       s: Stock, ev: EventDef)
    requires market.Valid()
    requires Accounted(market, baseline, a)
    requires market.Get(ev.stockCode) == s
    modifies s
    ensures Accounted(market, baseline, a + [ActiveEvent(ev, LONG_MAX_VALUE, false)])
    ensures s.shiftPct == old(s.shiftPct) + ev.shiftPct
    ensures s.price == old(s.price) && s.lastPrice == old(s.lastPrice)
  {
    s.AddShift(ev.shiftPct);
    IndexedByOwnCode(market);
    forall t | t in market.byCode.Values
      ensures t.code in baseline && t.shiftPct == baseline[t.code] + ShiftSum(a + [ActiveEvent(ev, LONG_MAX_VALUE, false)], t.code)
    {
      AppendShift(a, ActiveEvent(ev, LONG_MAX_VALUE, false), t.code);
    }
  }

  /** One step of the revert loop: the event's shift comes off the stock its code resolves to, if any. */
  method RevertOne(market: Market, ae: ActiveEvent)
    requires market.Valid()
    modifies market.byCode.Values
    ensures forall s :: s in market.byCode.Values ==> s.shiftPct == old(s.shiftPct) - Contribution(ae, s.code)
    ensures forall s :: s in market.byCode.Values ==> s.price == old(s.price) && s.lastPrice == old(s.lastPrice)
  {
    IndexedByOwnCode(market);
    var s := market.Get(ae.def.stockCode);
    if s != null {
      s.AddShift(-ae.def.shiftPct);
    }
  }

  /**
   * The revert loop of the end-of-day reset: takes each event's shift back
   * off the stock its code resolves to, and logs one line per event.
   */
  method RevertShifts(market: Market, ghost baseline: map<string, real>, snapshot: seq<ActiveEvent>)
    returns (ended: seq<Notice>)
    requires market.Valid()
    requires Accounted(market, baseline, snapshot)
    modifies market.byCode.Values
    ensures Accounted(market, baseline, [])
    ensures ended == EndedNotices(snapshot)
    ensures forall s :: s in market.byCode.Values ==>
              s.shiftPct == old(s.shiftPct) - ShiftSum(snapshot, s.code)
    ensures forall s :: s in market.byCode.Values ==> s.price == old(s.price) && s.lastPrice == old(s.lastPrice)
  {
    ended := [];
    var i := 0;
    while i < |snapshot|
      invariant 0 <= i <= |snapshot|
      invariant ended == EndedNotices(snapshot[..i])
      invariant forall s :: s in market.byCode.Values ==>
                  s.shiftPct == old(s.shiftPct) - ShiftSum(snapshot[..i], s.code)
      invariant forall s :: s in market.byCode.Values ==> s.price == old(s.price) && s.lastPrice == old(s.lastPrice)
    {
      var ae := snapshot[i];
      RevertOne(market, ae);
      ended := ended + [EndedAtEod(ae.def)];
      assert snapshot[..i + 1] == snapshot[..i] + [ae];
      forall t | t in market.byCode.Values
        ensures t.shiftPct == old(t.shiftPct) - ShiftSum(snapshot[..i + 1], t.code)
      {
        AppendShift(snapshot[..i], ae, t.code);
      }
      i := i + 1;
    }
    assert snapshot[..i] == snapshot;
    assert ShiftSum([], "") == 0.0;
  }

  class EventEngine {
    const market: Market
    var eventDefs: seq<EventDef>
    var day: Day

    /** Calls made into the log, toast and refresh callbacks, oldest first. */
    var notices: seq<Notice>

    /** The time at which each active event fired. */
    ghost var fireTimes: seq<int>
    /** Each indexed stock's shift as it stood before the day's first fire. */
    ghost var baseline: map<string, real>

    ghost predicate Valid()
      reads this, market, market.byCode.Values
    {
      market.Valid() && DayOk(day, fireTimes) && Accounted(market, baseline, day.activeEvents)
    }

    constructor (market: Market, eventDefs: seq<EventDef>)
      requires market.Valid()
      ensures Valid()
      ensures this.market == market && this.eventDefs == eventDefs
      ensures day == FreshDay && fireTimes == [] && notices == []
    {
      this.market := market;
      this.eventDefs := eventDefs;
      day := FreshDay;
      notices := [];
      fireTimes := [];
      baseline := map c | c in market.byCode :: market.byCode[c].shiftPct;
    }

    /** The active events: at most the daily cap, no identity twice, all lasting until end of day. */
    function ActiveEvents(): (r: seq<ActiveEvent>)
      requires Valid()
      reads this, market, market.byCode.Values
      ensures r == day.activeEvents
      ensures |r| == day.eventsToday <= MAX_EVENTS_PER_DAY
      ensures forall i, j :: 0 <= i < j < |r| ==> IdentityKey(r[i].def) != IdentityKey(r[j].def)
      ensures forall i :: 0 <= i < |r| ==> r[i].endsAtMillis == LONG_MAX_VALUE && !r[i].effectReverted
    {
      AddedFreshIsDistinct(day.activeEvents);
      day.activeEvents
    }

    /** Replaces the pool wholesale; active events and counters are untouched. */
    method SetEventDefs(defs: seq<EventDef>)
      requires Valid()
      modifies this`eventDefs
      ensures Valid()
      ensures eventDefs == defs
    {
      eventDefs := defs;
    }

    /**
     * The scan over the shuffled pool: the index of the first eligible
     * candidate, or |pool| when there is none.
     */
    method ScanForCandidate(pool: seq<EventDef>, now: int) returns (k: int)
      requires market.Valid()
      ensures 0 <= k <= |pool|
      ensures k < |pool| ==> Eligible(day, market.byCode.Keys, pool[k], now)
      ensures forall j :: 0 <= j < k ==> !Eligible(day, market.byCode.Keys, pool[j], now)
    {
      k := 0;
      while k < |pool|
        invariant 0 <= k <= |pool|
        invariant forall j :: 0 <= j < k ==> !Eligible(day, market.byCode.Keys, pool[j], now)
      {
        var ev := pool[k];
        var stock := ToLower(ev.stockCode);
        var key := stock + "|" + ev.title;
        if key in day.activeKeys {
          k := k + 1;
          continue;
        }
        var used := GetOrDefault(day.perEventCountToday, key, 0);
        if used >= PER_EVENT_MAX_PER_DAY {
          k := k + 1;
          continue;
        }
        var lastForStock := GetOrDefault(day.lastStockTriggerAt, stock, 0);
        if now - lastForStock < PER_STOCK_COOLDOWN_MS {
          k := k + 1;
          continue;
        }
        if market.Get(ev.stockCode) == null {
          k := k + 1;
          continue;
        }
        return;
      }
    }

    /** The state change of one fire of `ev` at time `now`. */
    twostate predicate FiredEffects(ev: EventDef, now: int)
      reads this, market, market.byCode.Values
    {
      && eventDefs == old(eventDefs)
      && day == Fire(old(day), ev, now)
      && fireTimes == old(fireTimes) + [now]
      && notices == old(notices) + [EventLogged(ev), Toasted(ev), Refreshed]
      && market.byCode == old(market.byCode)
      && ev.stockCode in old(market.byCode)
      && market.byCode[ev.stockCode].shiftPct == old(market.byCode[ev.stockCode].shiftPct) + ev.shiftPct
      && (forall s :: s in old(market.byCode.Values) && s != market.byCode[ev.stockCode] ==> s.shiftPct == old(s.shiftPct))
      && (forall s :: s in old(market.byCode.Values) ==> s.price == old(s.price) && s.lastPrice == old(s.lastPrice))
    }

    /**
     * Fires `ev`. Reached only through the gates of TryTrigger, which is why
     * those gates are its precondition; the unknown-stock case is re-checked.
     */
    method Trigger(ev: EventDef, now: int) returns (fired: bool)
      requires Valid()
      requires day.eventsToday < MAX_EVENTS_PER_DAY
      requires now - day.lastAnyTriggerAt >= MIN_GAP_BETWEEN_TRIGGERS_MS
      requires IdentityKey(ev) !in day.activeKeys
      requires now - GetOrDefault(day.lastStockTriggerAt, StockKey(ev), 0) >= PER_STOCK_COOLDOWN_MS
      modifies this, market.byCode.Values
      ensures Valid()
      ensures fired <==> market.Get(ev.stockCode) != null
      ensures fired ==> FiredEffects(ev, now)
      ensures !fired ==> notices == old(notices) + [SkippedUnknownStock(ev)]
      ensures !fired ==> day == old(day) && fireTimes == old(fireTimes) && eventDefs == old(eventDefs)
      ensures !fired ==> unchanged(market.byCode.Values)
    {
      var s := market.Get(ev.stockCode);
      if s == null {
        notices := notices + [SkippedUnknownStock(ev)];
        return false;
      }

      fired := true;
      FireOn(s, ev, now);
    }

    /** The rest of trigger once the event's stock is found: the shift, the bookkeeping, the callbacks. */
    method FireOn(s: Stock, ev: EventDef, now: int)
      requires Valid()
      requires market.Get(ev.stockCode) == s
      requires day.eventsToday < MAX_EVENTS_PER_DAY
      requires now - day.lastAnyTriggerAt >= MIN_GAP_BETWEEN_TRIGGERS_MS
      requires IdentityKey(ev) !in day.activeKeys
      requires now - GetOrDefault(day.lastStockTriggerAt, StockKey(ev), 0) >= PER_STOCK_COOLDOWN_MS
      modifies this, s
      ensures Valid()
      ensures FiredEffects(ev, now)
    {
      ShiftForEvent(market, baseline, day.activeEvents, s, ev);
      Record(ev, now);
    }

    /** The bookkeeping and the callbacks of a fire whose shift is already on its stock. */
    method Record(ev: EventDef, now: int)
      requires DayOk(day, fireTimes)
      requires day.eventsToday < MAX_EVENTS_PER_DAY
      requires now - day.lastAnyTriggerAt >= MIN_GAP_BETWEEN_TRIGGERS_MS
      requires IdentityKey(ev) !in day.activeKeys
      requires now - GetOrDefault(day.lastStockTriggerAt, StockKey(ev), 0) >= PER_STOCK_COOLDOWN_MS
      modifies this
      ensures DayOk(day, fireTimes)
      ensures eventDefs == old(eventDefs) && baseline == old(baseline)
      ensures day == Fire(old(day), ev, now)
      ensures fireTimes == old(fireTimes) + [now]
      ensures notices == old(notices) + [EventLogged(ev), Toasted(ev), Refreshed]
    {
      FireKeepsDay(day, fireTimes, ev, now);
      day := Fire(day, ev, now);
      fireTimes := fireTimes + [now];
      notices := notices + [EventLogged(ev), Toasted(ev), Refreshed];
    }

    /** One scheduling tick at time `now`, with dice roll `roll` and the pool shuffled as `shuffled`. */
    method TryTrigger(now: int, roll: int, shuffled: seq<EventDef>) returns (outcome: TickOutcome)
      requires Valid()
      requires 0 <= roll < 100
      requires multiset(shuffled) == multiset(eventDefs)
      modifies this, market.byCode.Values
      ensures Valid()
      ensures eventDefs == old(eventDefs)
      ensures old(|eventDefs|) == 0 ==> outcome == EmptyPool
      ensures (old(|eventDefs| > 0 && day.eventsToday >= MAX_EVENTS_PER_DAY)) ==> outcome == DailyCapReached
      ensures (old(|eventDefs| > 0 && day.eventsToday < MAX_EVENTS_PER_DAY &&
                   now - day.lastAnyTriggerAt < MIN_GAP_BETWEEN_TRIGGERS_MS)) ==> outcome == TooSoon
      ensures (old(|eventDefs| > 0 && day.eventsToday < MAX_EVENTS_PER_DAY &&
                   now - day.lastAnyTriggerAt >= MIN_GAP_BETWEEN_TRIGGERS_MS) && roll >= CHANCE_PCT) ==>
                outcome == ChanceMissed
      ensures outcome.Fired? <==>
                old(|eventDefs| > 0 && day.eventsToday < MAX_EVENTS_PER_DAY &&
                    now - day.lastAnyTriggerAt >= MIN_GAP_BETWEEN_TRIGGERS_MS) && roll < CHANCE_PCT &&
                exists j :: 0 <= j < |shuffled| && Eligible(old(day), market.byCode.Keys, shuffled[j], now)
      ensures outcome.Fired? ==>
                exists k :: 0 <= k < |shuffled| && shuffled[k] == outcome.def &&
                            Eligible(old(day), market.byCode.Keys, shuffled[k], now) &&
                            forall j :: 0 <= j < k ==> !Eligible(old(day), market.byCode.Keys, shuffled[j], now)
      ensures outcome.Fired? ==> FiredEffects(outcome.def, now)
      ensures !outcome.Fired? ==> unchanged(this) && unchanged(market.byCode.Values)
    {
      if |eventDefs| == 0 {
        return EmptyPool;
      }
      if day.eventsToday >= MAX_EVENTS_PER_DAY {
        return DailyCapReached;
      }
      if now - day.lastAnyTriggerAt < MIN_GAP_BETWEEN_TRIGGERS_MS {
        return TooSoon;
      }
      if roll >= CHANCE_PCT {
        return ChanceMissed;
      }

      outcome := PickAndFire(shuffled, now);
    }

    /** The second half of a tick, once every gate has passed: scan the shuffled pool and fire the first eligible event. */
    method PickAndFire(pool: seq<EventDef>, now: int) returns (outcome: TickOutcome)
      requires Valid()
      requires day.eventsToday < MAX_EVENTS_PER_DAY
      requires now - day.lastAnyTriggerAt >= MIN_GAP_BETWEEN_TRIGGERS_MS
      modifies this, market.byCode.Values
      ensures Valid()
      ensures outcome.Fired? || outcome == NoCandidate
      ensures outcome.Fired? <==> exists j :: 0 <= j < |pool| && Eligible(old(day), market.byCode.Keys, pool[j], now)
      ensures outcome.Fired? ==>
                exists k :: 0 <= k < |pool| && pool[k] == outcome.def &&
                            Eligible(old(day), market.byCode.Keys, pool[k], now) &&
                            forall j :: 0 <= j < k ==> !Eligible(old(day), market.byCode.Keys, pool[j], now)
      ensures outcome.Fired? ==> FiredEffects(outcome.def, now)
      ensures !outcome.Fired? ==> unchanged(this) && unchanged(market.byCode.Values)
    {
      var k := ScanForCandidate(pool, now);
      if k == |pool| {
        return NoCandidate;
      }
      var chosen := pool[k];
      var fired := Trigger(chosen, now);
      outcome := Fired(chosen);
    }

    /**
     * End-of-day rollover: reverts the shift of every active event on the
     * stock it targets, clears the active set and every counter, then calls
     * refresh once.
     */
    method ResetDaily()
      requires Valid()
      modifies this, market.byCode.Values
      ensures Valid()
      ensures day == FreshDay && fireTimes == []
      ensures eventDefs == old(eventDefs) && baseline == old(baseline)
      ensures notices == old(notices) + EndedNotices(old(day.activeEvents)) + [Refreshed]
      ensures forall s :: s in market.byCode.Values ==>
                s.shiftPct == old(s.shiftPct) - ShiftSum(old(day.activeEvents), s.code)
      ensures forall s :: s in market.byCode.Values ==> s.code in baseline && s.shiftPct == baseline[s.code]
    {
      var snapshot := day.activeEvents;
      var ended := RevertShifts(market, baseline, snapshot);
      ClearDay(ended);
    }

    /** The clearing half of the reset, once every shift is reverted: a fresh day, then one refresh. */
    method ClearDay(ended: seq<Notice>)
      requires market.Valid()
      requires Accounted(market, baseline, [])
      modifies this
      ensures Valid()
      ensures day == FreshDay && fireTimes == []
      ensures eventDefs == old(eventDefs) && baseline == old(baseline)
      ensures notices == old(notices) + ended + [Refreshed]
    {
      FreshDayOk();
      day := FreshDay;
      fireTimes := [];
      notices := notices + ended + [Refreshed];
    }
  }
}
