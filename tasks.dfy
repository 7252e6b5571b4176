/**
 * The player's to-do list: one task per distinct market event of the day,
 * at most twenty kept, the oldest dropped first.
 */
module Tasks {
  import opened Text
  import opened Events

  /** A to-do entry: fixed text, and a flag that only ever goes from open to done. */
  class Task {
    const text: string
    var done: bool

    constructor (text: string)
      ensures this.text == text && !done
    {
      this.text := text;
      done := false;
    }

    function IsDone(): bool
      reads this
    {
      done
    }

    /** Marking is idempotent: the task is done afterwards whatever it was before. */
    method MarkDone()
      modifies this
      ensures done
    {
      done := true;
    }

    /**
     * The list rendering: a two-character marker, a check mark for a done
     * task and a bullet for an open one, then the text unchanged.
     */
    function ToString(): (r: string)
      reads this
      ensures |r| == |text| + 2 && r[1] == ' ' && r[2..] == text
      ensures r[0] == DoneMark <==> done
      ensures r[0] == OpenMark <==> !done
    {
      (if done then [DoneMark, ' '] else [OpenMark, ' ']) + text
    }
  }

  const DoneMark: char := '\U{2714}'
  const OpenMark: char := '\U{2022}'

  /** Tasks kept for the day; older ones are dropped beyond this. */
  const MAX_TASKS: nat := 20

  /** Two events count as the same for the to-do list when type and detail agree. */
  function DayKey(evt: MarketEvent): string
  {
    evt.kind + "|" + evt.detail
  }

  const Dash: string := " \U{2014} "

  /** The action the player is asked to take, by event type. */
  function MakePlayerAction(evt: MarketEvent): (r: string)
    ensures |r| >= |evt.detail| && r[|r| - |evt.detail|..] == evt.detail
    ensures evt.kind == OPEC ==> r == "Energy: adjust OIL positioning" + Dash + evt.detail
    ensures evt.kind == EARNINGS ==> r == "Decide BHP move on earnings" + Dash + evt.detail
    ensures evt.kind == RATE_HIKE ==> r == "Rebalance rate-sensitive names" + Dash + evt.detail
    ensures evt.kind == NEWS ==> r == "Review positions affected" + Dash + evt.detail
    ensures evt.kind !in {OPEC, EARNINGS, RATE_HIKE, NEWS} ==> r == "Respond: " + evt.detail
  {
    var prefix :=
      if evt.kind == OPEC then "Energy: adjust OIL positioning" + Dash
      else if evt.kind == EARNINGS then "Decide BHP move on earnings" + Dash
      else if evt.kind == RATE_HIKE then "Rebalance rate-sensitive names" + Dash
      else if evt.kind == NEWS then "Review positions affected" + Dash
      else "Respond: ";
    prefix + evt.detail
  }

  /** Events of one type yield the same action only when their details agree. */
  lemma ActionDeterminesDetail(a: MarketEvent, b: MarketEvent)
    requires a.kind == b.kind
    ensures MakePlayerAction(a) == MakePlayerAction(b) <==> a.detail == b.detail
  {
    var ra, rb := MakePlayerAction(a), MakePlayerAction(b);
    if ra == rb {
      assert |a.detail| == |b.detail|;
      assert a.detail == ra[|ra| - |a.detail|..];
    }
  }

  class TaskManager {
    var tasks: seq<Task>
    var dayKeys: set<string>
    /** The day key of the event each listed task was created for, position by position. */
    ghost var taskKeys: seq<string>

    /**
     * At most twenty tasks, no two created for the same event key, and
     * every listed task's key remembered for the day.
     */
    ghost predicate Valid()
      reads this
    {
      && |tasks| == |taskKeys| <= MAX_TASKS
      && (forall i, j :: 0 <= i < j < |taskKeys| ==> taskKeys[i] != taskKeys[j])
      && (forall i :: 0 <= i < |taskKeys| ==> taskKeys[i] in dayKeys)
    }

    constructor ()
      ensures Valid()
      ensures tasks == [] && dayKeys == {} && taskKeys == []
    {
      tasks := [];
      dayKeys := {};
      taskKeys := [];
    }

    /** The same as Clear: an empty list and no remembered keys. */
    method ResetForNewDay()
      modifies this
      ensures Valid()
      ensures tasks == [] && dayKeys == {} && taskKeys == []
    {
      tasks := [];
      dayKeys := {};
      taskKeys := [];
    }

    method Clear()
      modifies this
      ensures Valid()
      ensures tasks == [] && dayKeys == {} && taskKeys == []
    {
      ResetForNewDay();
    }

    /** Every listed task is done; the list itself is the same. */
    method MarkAllDone()
      requires Valid()
      modifies tasks
      ensures Valid()
      ensures tasks == old(tasks) && dayKeys == old(dayKeys) && taskKeys == old(taskKeys)
      ensures forall i :: 0 <= i < |tasks| ==> tasks[i].done
    {
      var i := 0;
      while i < |tasks|
        invariant 0 <= i <= |tasks|
        invariant forall j :: 0 <= j < i ==> tasks[j].done
      {
        tasks[i].MarkDone();
        i := i + 1;
      }
    }

    /**
     * A new event key adds one open task with the event's action, dropping
     * the oldest task once more than twenty are listed; a key seen earlier
     * in the day, even one whose task was dropped, changes nothing.
     */
    method OnEvent(evt: MarketEvent)
      requires Valid()
      modifies this
      ensures Valid()
      ensures DayKey(evt) in dayKeys && old(dayKeys) <= dayKeys
      ensures DayKey(evt) in old(dayKeys) ==>
        tasks == old(tasks) && dayKeys == old(dayKeys) && taskKeys == old(taskKeys)
      ensures DayKey(evt) !in old(dayKeys) ==>
        && dayKeys == old(dayKeys) + {DayKey(evt)}
        && |tasks| > 0
        && fresh(tasks[|tasks| - 1])
        && tasks[|tasks| - 1].text == MakePlayerAction(evt)
        && !tasks[|tasks| - 1].done
        && tasks == (if |old(tasks)| < MAX_TASKS then old(tasks) else old(tasks)[1..]) + [tasks[|tasks| - 1]]
        && taskKeys == (if |old(taskKeys)| < MAX_TASKS then old(taskKeys) else old(taskKeys)[1..]) + [DayKey(evt)]
    {
      var key := DayKey(evt);
      if key in dayKeys {
        return;
      }
      var action := MakePlayerAction(evt);
      var t := new Task(action);
      tasks := tasks + [t];
      taskKeys := taskKeys + [key];
      dayKeys := dayKeys + {key};
      if |tasks| > MAX_TASKS {
        tasks := tasks[1..];
        taskKeys := taskKeys[1..];
      }
    }
  }
}
