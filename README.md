# Market events for the trading-floor game, in Dafny

This project models the market-event core of a JavaFX trading game. The
game holds a market of three stocks (iron, oil, bhp). An event engine ticks
every six seconds and sometimes fires a market event from a small pool. A
fired event adds a drift offset (the *shift*, in percentage points) to one
stock and stays active until the end-of-day reset. The reset reverts every
shift and clears the engine's bookkeeping. Several guards limit how often
events fire:

- at most four events a day;
- at least 90 s between any two fires;
- a 20 % chance per tick;
- each stock/title identity at most once a day;
- at least 180 s between fires on one stock.

Around the engine sit four more parts:

- a manager that picks the day's events, classifies them by keyword and
  publishes the ones that newly became active;
- a de-duplicating to-do list of at most twenty tasks;
- the stock and market store the engine reads and changes;
- the non-dialogue rules of the NPC controller: the party tier, the
  once-a-day briefing and energy-trader visits, and the compliance audit.

The engine has two near-identical Java copies, `events/EventEngine.java`
and `app/demo/EventEngine.java`. One Dafny class, `Engine.EventEngine`,
models both, and the table cites each copy.

Modules, one per file:

| file | module | models |
|---|---|---|
| text.dfy | `Text` | the `java.lang.String` operations the core uses: toLowerCase, toUpperCase, equalsIgnoreCase, contains, `%.2f` |
| stock.dfy | `Stocks` | `Stock`: a class whose `shiftPct` is changed in place |
| market.dfy | `Markets` | `Market`: an append-only list plus a by-code index |
| market_event.dfy | `Events` | the `MarketEvent` record and its type names |
| event_engine.dfy | `Engine` | the scheduler |
| tasks.dfy | `Tasks` | `Task` and `TaskManager` |
| market_events_manager.dfy | `MarketEvents` | the manager that bridges the engine to the event bus |
| npc.dfy | `Npc` | the rules of `Npc.Controller` |

How the model maps the source:

- **Inputs.** The clock reading `now`, the dice roll and the shuffled pool
  are parameters. The shuffle is any sequence with the same multiset as the
  pool.
- **Engine callbacks.** The log, toast and refresh callbacks become a
  `notices` trace on the engine. The trace records which call happened, not
  the text.
- **Event bus.** The manager's bus becomes a `published` sequence.
- **Engine bookkeeping.** The six pieces of per-day bookkeeping are one
  value of type `Day`, which every fire and every reset replaces.
- **Ghost state.** Two ghost fields carry the day-level invariants:
  - `fireTimes` holds the time at which each active event fired;
  - `baseline` holds each stock's shift as it stood at the start of the day.
- **Invariants.** `CountersOk` and `TimesOk` state the counters and the
  fire times. `Accounted` states the shifts.
- **Counters.** The daily cap, per-identity cap, global gap and per-stock
  cooldown follow from the invariants (`DayGuarantees`).
- **Keys.** The identity key is the lower-cased code, a bar, and the title.
  The cooldown map uses the lower-cased code, while the market is looked up
  by the raw code. The model keeps these separate. The manager remembers
  active events under the *raw* code and the title (`RawKey`), as its
  source does.
- **Two engine copies.** Each engine row cites `events/EventEngine.java`. The same code sits in `app/demo/EventEngine.java` at these lines:

  | operation | events/EventEngine.java | app/demo/EventEngine.java |
  |---|---|---|
  | getActiveEvents | 59-61 | 47-49 |
  | setEventDefs | 64-67 | 54-57 |
  | resetDaily | 100-117 | 88-105 |
  | tryTrigger | 121-163 | 110-150 |
  | the scan | 136-160 | 124-147 |
  | trigger | 165-197 | 152-186 |
  | the bookkeeping of a fire | 176-190 | 163-177 |

- **Other rows.** `Task.isDone` is the function `Tasks.Task.IsDone` and
  `Task.getText` is the constant field `text`. Neither has a contract
  beyond its body, so neither has a row.

## Model

| member | source | states |
|---|---|---|
| Text.ToLower | cab302-project-master-master/cab302-project-master/src/main/java/events/MarketEventsManager.java:109 | same length; every character lower-cased; no upper-case ASCII letter left |
| Text.ToUpper | cab302-project-master-master/cab302-project-master/src/main/java/events/MarketEventsManager.java:124 | same length; every character upper-cased; no lower-case ASCII letter left |
| Text.ContainsIffOccurs | cab302-project-master-master/cab302-project-master/src/main/java/events/MarketEventsManager.java:111-122 | the left-to-right `contains` scan holds exactly when the word occurs at some position |
| Text.FormatFixed2 | cab302-project-master-master/cab302-project-master/src/main/java/events/MarketEventsManager.java:125 | `%.2f` in a locale that writes a decimal point and ASCII digits: a point third from the end, two digits after it, and a leading minus exactly for a negative value |
| Text.FormatFixed2Value | cab302-project-master-master/cab302-project-master/src/main/java/events/MarketEventsManager.java:125 | the digits of `%.2f` denote the magnitude rounded half up to hundredths: the integer part before the point and the hundredths after it |
| Text.NatToStringValue | cab302-project-master-master/cab302-project-master/src/main/java/events/MarketEventsManager.java:125 | the decimal rendering of the integer part denotes that integer |
| Stocks.Stock.constructor | cab302-project-master-master/cab302-project-master/src/main/java/app/demo/Stock.java:18-22 | keeps the code; price and lastPrice are the initial price; the shift starts at 0 |
| Stocks.Stock.AddShift | cab302-project-master-master/cab302-project-master/src/main/java/app/demo/Stock.java:37-39 | the shift grows by exactly the delta; price and lastPrice do not change |
| Stocks.ApplyThenRevert | cab302-project-master-master/cab302-project-master/src/main/java/app/demo/Stock.java:37-39 | adding a delta and then its negation gives back the original shift; prices are untouched |
| Markets.LastIndexWithCode | cab302-project-master-master/cab302-project-master/src/main/java/core/Market.java:12-14 | the position found is in range and carries the code, or is -1 |
| Markets.NothingLaterWithCode | cab302-project-master-master/cab302-project-master/src/main/java/core/Market.java:12 | no stock added after the one found has that code, so a later add replaces the index entry |
| Markets.Market.constructor | cab302-project-master-master/cab302-project-master/src/main/java/core/Market.java:9-10 | an empty list and an empty index |
| Markets.Market.Add | cab302-project-master-master/cab302-project-master/src/main/java/core/Market.java:12 | appends to the list; files the stock under its code; `Get` of that code returns it; `Get` of every other code is unchanged |
| Markets.Market.List | cab302-project-master-master/cab302-project-master/src/main/java/core/Market.java:13 | the stocks as added, in order |
| Markets.Market.Get | cab302-project-master-master/cab302-project-master/src/main/java/core/Market.java:14 | the last stock added with the code, or null; a hit carries the code and is in the index |
| Markets.IndexedByOwnCode | cab302-project-master-master/cab302-project-master/src/main/java/core/Market.java:12 | every indexed stock is filed under its own code |
| Markets.NoneFoundIffNeverAdded | cab302-project-master-master/cab302-project-master/src/main/java/core/Market.java:14 | a lookup yields null exactly when no stock with that code was added |
| Markets.AddSameCodeTwice | cab302-project-master-master/cab302-project-master/src/main/java/core/Market.java:12 | after two adds with one code, `Get` yields the second while the list keeps both, in order |
| Engine.GetOrDefault | cab302-project-master-master/cab302-project-master/src/main/java/events/EventEngine.java:148-152 | `Map.getOrDefault`: the stored value for a present key, otherwise the default |
| Engine.Fire | cab302-project-master-master/cab302-project-master/src/main/java/events/EventEngine.java:176-190 | the bookkeeping of a fire: one entry ending at Long.MAX_VALUE is appended; the identity key is added; the daily count rises by 1; the last-fire time and the stock's time become `now`; the identity's count rises by 1; every other entry of both maps is kept |
| Engine.KeysOfEvents | cab302-project-master-master/cab302-project-master/src/main/java/events/EventEngine.java:182-183 | a key is in the active-key set exactly when some active event has it, for identity keys and for stock keys |
| Engine.AddedFreshIsDistinct | cab302-project-master-master/cab302-project-master/src/main/java/app/demo/EventEngine.java:132 | if each event was new when added, no identity is active twice |
| Engine.AddedSpacedIsGapped | cab302-project-master-master/cab302-project-master/src/main/java/app/demo/EventEngine.java:117-118 | if each fire was at least 90 000 ms after the previous one, any two fires of the day are that far apart |
| Engine.AddedCooledDownIsCooled | cab302-project-master-master/cab302-project-master/src/main/java/app/demo/EventEngine.java:139-140 | if each fire was at least 180 000 ms after every earlier fire on its stock, any two fires on one lower-cased code are that far apart |
| Engine.DayGuarantees | cab302-project-master-master/cab302-project-master/src/main/java/events/EventEngine.java:125-190 | between resets: at most 4 active events; no identity twice; the global gap between any two fires; the per-stock cooldown between any two fires on one stock |
| Engine.FreshDayOk | cab302-project-master-master/cab302-project-master/src/main/java/events/EventEngine.java:107-114 | the cleared bookkeeping satisfies the day invariant |
| Engine.FireKeepsCounters | cab302-project-master-master/cab302-project-master/src/main/java/events/EventEngine.java:145-190 | a fire below the cap whose key is not active keeps the counters consistent: count equals the number of active events, at most 4, each identity fired once |
| Engine.FireKeepsTimes | cab302-project-master-master/cab302-project-master/src/main/java/events/EventEngine.java:130-189 | a fire that passed the gap and the cooldown keeps the recorded fire times consistent with the stamps and spacing |
| Engine.FireKeepsDay | cab302-project-master-master/cab302-project-master/src/main/java/events/EventEngine.java:122-190 | a fire that passed the tick's gates and the scan keeps the whole day invariant |
| Engine.FireCloses | cab302-project-master-master/cab302-project-master/src/main/java/events/EventEngine.java:145-153 | from any bookkeeping and at any later time, after a fire the same identity never passes the scan again that day; no event on the same lower-cased code passes within the 180 000 ms cooldown |
| Engine.ShiftSumAppend | cab302-project-master-master/cab302-project-master/src/main/java/app/demo/Stock.java:37-39 | the net shift of two lists of events is the sum of their net shifts |
| Engine.ShiftSumWithout | cab302-project-master-master/cab302-project-master/src/main/java/events/EventEngine.java:102-106 | taking one event out of the list takes exactly its contribution out of the net shift |
| Engine.ShiftSumPermutation | cab302-project-master-master/cab302-project-master/src/main/java/app/demo/Stock.java:37-39 | the order in which shifts are applied does not change the net shift |
| Engine.EndedNotices | cab302-project-master-master/cab302-project-master/src/main/java/events/EventEngine.java:102-106 | the reset logs one "ended" line per active event, in order |
| Engine.ShiftForEvent | cab302-project-master-master/cab302-project-master/src/main/java/events/EventEngine.java:166-173 | the event's shift goes onto the stock its raw code resolves to; the day's shifts stay accounted for; prices do not change |
| Engine.RevertOne | cab302-project-master-master/cab302-project-master/src/main/java/events/EventEngine.java:103-104 | one revert step: each indexed stock loses exactly this event's contribution; prices do not change |
| Engine.RevertShifts | cab302-project-master-master/cab302-project-master/src/main/java/events/EventEngine.java:102-106 | the revert loop takes each active event's shift off its stock, so every stock's shift is back at its day-start value; one log line per event |
| Engine.EventEngine.constructor | cab302-project-master-master/cab302-project-master/src/main/java/events/EventEngine.java:69-86 | keeps the market and the pool; starts with an empty day and no notices; the invariants hold |
| Engine.EventEngine.ActiveEvents | cab302-project-master-master/cab302-project-master/src/main/java/events/EventEngine.java:59-61 | the active list, as many as today's count and at most 4, no identity twice, each lasting until end of day |
| Engine.EventEngine.SetEventDefs | cab302-project-master-master/cab302-project-master/src/main/java/events/EventEngine.java:64-67 | the pool becomes exactly the given list; the day's bookkeeping is untouched |
| Engine.EventEngine.ScanForCandidate | cab302-project-master-master/cab302-project-master/src/main/java/events/EventEngine.java:136-160 | returns the first index whose event passes all four checks (key not active, under the daily per-identity cap, past the stock cooldown, stock in the market), or the length when none passes; every earlier event fails one |
| Engine.EventEngine.Trigger | cab302-project-master-master/cab302-project-master/src/main/java/events/EventEngine.java:165-197 | an unknown stock only logs a skip; otherwise the shift is added to that stock alone, the bookkeeping advances, and log, toast and refresh are called once each |
| Engine.EventEngine.FireOn | cab302-project-master-master/cab302-project-master/src/main/java/events/EventEngine.java:172-196 | the fired path of trigger, keeping every invariant |
| Engine.EventEngine.Record | cab302-project-master-master/cab302-project-master/src/main/java/events/EventEngine.java:176-196 | the bookkeeping becomes `Fire` of the old bookkeeping; the fire is stamped with `now` after the earlier fire times; the three callbacks are recorded; the day invariant is kept, so the gap and cooldown guarantees speak of the real fire times |
| Engine.EventEngine.TryTrigger | cab302-project-master-master/cab302-project-master/src/main/java/events/EventEngine.java:121-163 | the gates, in order: an empty pool, the cap, a gap under 90 000 ms or a roll of 20 or more ends the tick with nothing changed. It fires exactly when every gate passes and some shuffled event is eligible, and then it fires the first eligible one. A tick that does not fire changes nothing. The pool is never changed |
| Engine.EventEngine.PickAndFire | cab302-project-master-master/cab302-project-master/src/main/java/events/EventEngine.java:136-162 | after the gates: fires exactly when some event of the shuffled pool is eligible, and fires the first such one; otherwise changes nothing |
| Engine.EventEngine.ResetDaily | cab302-project-master-master/cab302-project-master/src/main/java/events/EventEngine.java:100-117 | each stock's shift drops by the net shift of the active events on it, which returns it to its day-start value. All bookkeeping is cleared. One "ended" line is logged per event, then refresh runs exactly once |
| Engine.EventEngine.ClearDay | cab302-project-master-master/cab302-project-master/src/main/java/events/EventEngine.java:107-116 | the clears and the single refresh, after all reverts |
| Tasks.Task.constructor | cab302-project-master-master/cab302-project-master/src/main/java/app/demo/Task.java:7-10 | holds the given text and is not done |
| Tasks.Task.MarkDone | cab302-project-master-master/cab302-project-master/src/main/java/app/demo/Task.java:20-22 | the task is done afterwards, whatever it was before |
| Tasks.Task.ToString | cab302-project-master-master/cab302-project-master/src/main/java/app/demo/Task.java:25-27 | a check mark exactly when done and a bullet exactly when open, then a space, then the text unchanged |
| Tasks.MakePlayerAction | cab302-project-master-master/cab302-project-master/src/main/java/app/demo/TaskManager.java:28-36 | each of OPEC, EARNINGS, RATE_HIKE and NEWS gets its fixed prefix; any other type gets "Respond: "; the detail always ends the action |
| Tasks.ActionDeterminesDetail | cab302-project-master-master/cab302-project-master/src/main/java/app/demo/TaskManager.java:28-36 | for events of one type, the actions are equal exactly when the details are equal |
| Tasks.TaskManager.constructor | cab302-project-master-master/cab302-project-master/src/main/java/app/demo/TaskManager.java:11-12 | no tasks and no remembered keys |
| Tasks.TaskManager.ResetForNewDay | cab302-project-master-master/cab302-project-master/src/main/java/app/demo/TaskManager.java:15 | empties both the task list and the remembered keys |
| Tasks.TaskManager.Clear | cab302-project-master-master/cab302-project-master/src/main/java/app/demo/TaskManager.java:17 | empties both the task list and the remembered keys |
| Tasks.TaskManager.MarkAllDone | cab302-project-master-master/cab302-project-master/src/main/java/app/demo/TaskManager.java:16 | every listed task is done; the list is the same tasks in the same order |
| Tasks.TaskManager.OnEvent | cab302-project-master-master/cab302-project-master/src/main/java/app/demo/TaskManager.java:19-26 | a key already seen that day changes nothing. A new key is remembered and appends one open task holding the event's action; past twenty tasks the oldest one is dropped. At most twenty tasks stay, no two for one key, and a dropped task's key stays remembered. Each listed task is paired with the day key of the event that created it, in step with the list |
| MarketEvents.Classify | cab302-project-master-master/cab302-project-master/src/main/java/events/MarketEventsManager.java:109-122 | the type is one of OIL_SUPPLY, OPEC, RATE_HIKE, EARNINGS, NEWS |
| MarketEvents.ClassifyByMentions | cab302-project-master-master/cab302-project-master/src/main/java/events/MarketEventsManager.java:111-122 | each type is chosen exactly when its keywords occur in the lower-cased title (for OPEC: or the code is "oil" in any case) and no earlier rule applies |
| MarketEvents.MapToMarketEvent | cab302-project-master-master/cab302-project-master/src/main/java/events/MarketEventsManager.java:108-127 | the type is the classification, the country is GLOBAL, and the detail is the formatted line |
| MarketEvents.DetailLayout | cab302-project-master-master/cab302-project-master/src/main/java/events/MarketEventsManager.java:124-125 | the detail line is the title, " (", the upper-cased code, ", ", a sign ('+' exactly for a non-negative shift, '-' exactly for a negative one), two decimals, then "%)" |
| MarketEvents.CappedAppendKeepsFirst | cab302-project-master-master/cab302-project-master/src/main/java/events/MarketEventsManager.java:101 | appending only while the list is shorter than the cap keeps the list and adds exactly the first announcements that fit |
| MarketEvents.AnnouncedOnlyIfNew | cab302-project-master-master/cab302-project-master/src/main/java/events/MarketEventsManager.java:98-100 | every announcement is the mapping of an active event whose key was not live at the previous sync |
| MarketEvents.NewIsAnnounced | cab302-project-master-master/cab302-project-master/src/main/java/events/MarketEventsManager.java:98-100 | every active event whose key was not live is announced |
| MarketEvents.NothingNewWhenLive | cab302-project-master-master/cab302-project-master/src/main/java/events/MarketEventsManager.java:94-105 | when all active keys are live, a sync announces nothing |
| MarketEvents.RawKeysOfEvents | cab302-project-master-master/cab302-project-master/src/main/java/events/MarketEventsManager.java:94-97 | a key is in the collected set exactly when some active event has that raw stock code and title |
| MarketEvents.PrefixWithinPool | cab302-project-master-master/cab302-project-master/src/main/java/events/MarketEventsManager.java:81-83 | the day's definitions are min(n, pool size) many and never repeat a pool entry more often than the pool does |
| MarketEvents.AnnounceFirst | cab302-project-master-master/cab302-project-master/src/main/java/events/MarketEventsManager.java:86-89 | the first k definitions, mapped, in order |
| MarketEvents.ScanActive | cab302-project-master-master/cab302-project-master/src/main/java/events/MarketEventsManager.java:94-103 | the sync loop: the keys of all active events; the announcements for keys not live; the day's list after the capped appends |
| MarketEvents.BaseMarket | cab302-project-master-master/cab302-project-master/src/main/java/events/MarketEventsManager.java:28-30 | iron at 12.00, oil at 75.00, bhp at 24.00, in that order, none shifted |
| MarketEvents.MarketEventsManager.constructor | cab302-project-master-master/cab302-project-master/src/main/java/events/MarketEventsManager.java:26-47 | the three base stocks; an engine with an empty pool and a fresh day; the six-event default pool; no live keys, no events listed or published |
| MarketEvents.MarketEventsManager.RollToday | cab302-project-master-master/cab302-project-master/src/main/java/events/MarketEventsManager.java:80-91 | the engine's pool becomes the first min(n, pool size) of the shuffle. The day's list is replaced by the first min(3, that) of them, mapped, in order, and those are published. Live keys and the engine's day are untouched |
| MarketEvents.MarketEventsManager.SyncFromEngine | cab302-project-master-master/cab302-project-master/src/main/java/events/MarketEventsManager.java:93-106 | publishes exactly the active events whose key was not live; adds them to the day's list while it holds fewer than five; the live keys become exactly the keys of the active events |
| MarketEvents.MarketEventsManager.NextDay | cab302-project-master-master/cab302-project-master/src/main/java/events/MarketEventsManager.java:63-66 | the engine resets first: every shift is back at its day-start value, the day is fresh, one "ended" line is logged per active event and refresh runs exactly once; then three events are rolled |
| Npc.DeterminePartyOffer | cab302-project-master-master/cab302-project-master/src/main/java/npc/Npc.java:263-267 | ULTRA exactly when reputation >= 50 and cash >= 1000; ELITE exactly when not ULTRA and reputation >= 20 and cash >= 200; BASIC otherwise |
| Npc.OfferMonotone | cab302-project-master-master/cab302-project-master/src/main/java/npc/Npc.java:263-267 | more reputation and cash never lower the tier; a tier above BASIC is affordable |
| Npc.HintListsAtMostThree | cab302-project-master-master/cab302-project-master/src/main/java/npc/Npc.java:194-196 | hints that agree on the first three events, when both lists have more, are equal: later events never show |
| Npc.BuildHint | cab302-project-master-master/cab302-project-master/src/main/java/npc/Npc.java:179-198 | the counting loop that stops after three builds exactly HintText: the quiet line for no events; otherwise the docket intro, at most three phrases, an ellipsis when there were more, and a full stop |
| Npc.AuditTimeFor | cab302-project-master-master/cab302-project-master/src/main/java/npc/Npc.java:348-351 | a valid time of day whose minute of the day is 720 plus the draw, in [720, 990): 12:00 to 16:29 |
| Npc.Controller.constructor | cab302-project-master-master/cab302-project-master/src/main/java/npc/Npc.java:68-77 | every flag false, no audit time, no days counted |
| Npc.Controller.MorningBrief | cab302-project-master-master/cab302-project-master/src/main/java/npc/Npc.java:173-200 | once the flag is set, a call says nothing and changes nothing; otherwise it sets the flag alone and speaks the briefing line |
| Npc.Controller.EnergyGamble | cab302-project-master-master/cab302-project-master/src/main/java/npc/Npc.java:207-208 | offers exactly when the visit flag was clear and then sets only that flag; otherwise changes nothing |
| Npc.Controller.TakeGamble | cab302-project-master-master/cab302-project-master/src/main/java/npc/Npc.java:223-242 | without the stake: reputation -2 and nothing else changes. With it: the stake is paid, a win pays 200, reputation +2 or -2, and the gamble is remembered for the audit |
| Npc.Controller.ScheduleAuditForToday | cab302-project-master-master/cab302-project-master/src/main/java/npc/Npc.java:347-353 | the audit is scheduled at the drawn minute, between 12:00 and 16:29; nothing else changes |
| Npc.Controller.ShowAudit | cab302-project-master-master/cab302-project-master/src/main/java/npc/Npc.java:360-385 | a -6 change exactly when the player gambled since the last audit. The gamble is forgiven, the audit unscheduled and its time cleared. A next audit 7 to 30 days out is drawn only when none was pending; otherwise the count is kept. Nothing else changes |

## Left out

- Timers: `start`, `stop`, `startBridge` and the Swing and JavaFX timers only schedule calls. A tick is a direct call of `TryTrigger` with its time.
- Clock: `System.currentTimeMillis()` is the parameter `now`. The source reads the clock a second time inside `trigger` (events/EventEngine.java:187, app/demo/EventEngine.java:174). The model stamps the fire with the tick's `now`, because the two readings differ only by the run time of the scan.
- Randomness: `Random.nextInt`, `nextDouble` and `Collections.shuffle` are foreign. They are a roll parameter, a coin parameter and a shuffled sequence with the pool's multiset.
- Concurrency: the copy-on-write list and the unmodifiable view only make reads thread-safe. The active list is a sequence.
- Callback text: the strings passed to the log and toast callbacks and `EventDef.toString` are not modelled. The trace records each call and its event.
- Floating point: shifts and prices are reals, not IEEE doubles. `FormatFixed2` rounds the real value half up.
- Text.FormatFixed2: `String.format("%.2f", …)` follows the default locale. The model assumes a locale that writes '.' as the decimal separator and ASCII digits; in, for example, a German or French locale Java writes a comma instead.
- Stock.tick and Market.tickAll: a floating-point random walk outside this model.
- Text.ToLower, Text.ToUpper, Text.EqualsIgnoreCase: the model maps ASCII letters only and ignores the locale. Java's `toLowerCase()` and `toUpperCase()` follow the default locale (for example the Turkish dotless i), and `equalsIgnoreCase` also folds non-ASCII letters. The core's keys and keywords contain only ASCII letters.
- Integer width: Java's `int` and `long` counters are unbounded integers. Each stays far below its wrap-around point (at most 4 fires a day; times in milliseconds).
- MarketEvent.when: the `LocalDateTime.now()` stamp of an event is not modelled.
- Market of app/demo/EventEngine.java: core/Market.java stands in for `app.demo.Market`, which is not part of this model. EventDef of events/EventEngine.java: the fields of app/demo/EventDef.java stand in for it, since that file uses `EventDef` without an import.
- Trigger's preconditions: trigger is private and is only reached through tryTrigger's gates and scan. The Dafny method therefore requires those gates, and it re-checks the unknown-stock case as the source does.
- Engine.EventEngine.Valid: `Accounted` assumes that, once the engine is built, only the engine changes its market's shifts and stock index. Every caller in the source adds its stocks before building the engine and shifts them only through it (events/MarketEventsManager.java:28-36, app/demo/hub.java:305-320).
- Event duration: `durationMs` is carried but never used to expire anything, as in the source.
- Engine.EventEngine.ResetDaily: the six per-day fields are one value, `Day`, that each fire and each reset replaces. The order of the six in-place updates within trigger and resetDaily is therefore not modelled.
- MarketEvents.MarketEventsManager.RollToday: the day's list and the sync's key set are built by value-level loops (`AnnounceFirst`, `ScanActive`) and then assigned, not grown in place on the fields.
- MarketEvents.MarketEventsManager.SyncFromEngine: event-bus subscribers are outside the model. Publishing is an append to `published`.
- Npc.Controller.MorningBrief: a null event list is treated like an empty one (the sequence cannot be null). The boss's dialogue is the returned string; the UI that shows it is left out.
- Npc.Controller.EnergyGamble: the buttons are asynchronous UI handlers. The model returns whether the gamble was offered, and `TakeGamble` is the yes-handler. The no-handler (npc/Npc.java:248-256, reputation -2 for passing) is left out; its -2 equals the constant `REP_DECLINE`, which `TakeGamble` uses for taking the gamble without the stake.
- Npc dialogue: socialInvite, event lines, idle lines, images and the dialogue overlay are UI.
- Keys are not injective: `"stock|title"` keys can collide when a title or code contains the bar. The model uses the keys exactly as the source does and proves nothing that assumes they are injective.
