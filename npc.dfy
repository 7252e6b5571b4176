/**
 * The non-dialogue rules of the NPC controller: which party tier is
 * offered, the once-a-day visits (the morning briefing and the energy
 * trader's gamble), and the compliance audit that punishes gambling.
 */
module Npc {
  import opened Text
  import opened Events

  datatype Option<T> = None | Some(value: T)

  datatype PartyTier = BASIC | ELITE | ULTRA

  const BASIC_REP_REQ: int := 0
  const ELITE_REP_REQ: int := 20
  const ULTRA_REP_REQ: int := 50
  const BASIC_COST: int := 50
  const ELITE_COST: int := 200
  const ULTRA_COST: int := 1000
  const BASIC_REP_GAIN: int := 10
  const ELITE_REP_GAIN: int := 30
  const ULTRA_REP_GAIN: int := 80

  /** The best tier whose reputation requirement and cost the player meets; BASIC otherwise. */
  function DeterminePartyOffer(reputation: int, cash: int): (t: PartyTier)
    ensures t == ULTRA <==> reputation >= ULTRA_REP_REQ && cash >= ULTRA_COST
    ensures t == ELITE <==>
              !(reputation >= ULTRA_REP_REQ && cash >= ULTRA_COST) && reputation >= ELITE_REP_REQ && cash >= ELITE_COST
    ensures t == BASIC <==>
              !(reputation >= ULTRA_REP_REQ && cash >= ULTRA_COST) && !(reputation >= ELITE_REP_REQ && cash >= ELITE_COST)
  {
    if reputation >= ULTRA_REP_REQ && cash >= ULTRA_COST then ULTRA
    else if reputation >= ELITE_REP_REQ && cash >= ELITE_COST then ELITE
    else BASIC
  }

  function Rank(t: PartyTier): int
  {
    match t
    case BASIC => 0
    case ELITE => 1
    case ULTRA => 2
  }

  function Cost(t: PartyTier): int
  {
    match t
    case BASIC => BASIC_COST
    case ELITE => ELITE_COST
    case ULTRA => ULTRA_COST
  }

  /**
   * More reputation and more cash never lower the offer, and a tier above
   * BASIC is only offered to a player who can pay for it.
   */
  lemma OfferMonotone(rep1: int, cash1: int, rep2: int, cash2: int)
    requires rep1 <= rep2 && cash1 <= cash2
    ensures Rank(DeterminePartyOffer(rep1, cash1)) <= Rank(DeterminePartyOffer(rep2, cash2))
    ensures DeterminePartyOffer(rep1, cash1) != BASIC ==> cash1 >= Cost(DeterminePartyOffer(rep1, cash1))
  {
  }

  // ------------------------------------------------------------ briefing

  const QuietHint: string := "Calendar looks quiet, but keep your board close."
  const DocketIntro: string := "On the docket: "
  const MoreMark: string := ", \U{2026}"
  /** The briefing names at most this many of the day's events. */
  const MAX_LISTED: int := 3

  /** How the boss refers to one event. */
  function Phrase(evt: MarketEvent): string
  {
    if evt.kind == RATE_HIKE then "rate chatter (" + evt.country + ")"
    else if evt.kind == OPEC then "OPEC signals"
    else if evt.kind == EARNINGS then "earnings (" + evt.detail + ")"
    else if evt.kind == NEWS then "headline risk (" + evt.country + ")"
    else ToLower(evt.kind)
  }

  /** The phrases of `es`, separated by ", ". */
  function JoinPhrases(es: seq<MarketEvent>): string
  {
    if |es| == 0 then ""
    else if |es| == 1 then Phrase(es[0])
    else JoinPhrases(es[..|es| - 1]) + ", " + Phrase(es[|es| - 1])
  }

  /** Joining one more event adds a separator only after the first. */
  lemma JoinStep(es: seq<MarketEvent>, i: int)
    requires 0 <= i < |es|
    ensures JoinPhrases(es[..i + 1]) == JoinPhrases(es[..i]) + (if i > 0 then ", " else "") + Phrase(es[i])
  {
    assert es[..i + 1][..i] == es[..i];
  }

  /**
   * The briefing's hint: the quiet line for no events; otherwise the first
   * three events' phrases, an ellipsis when there were more, and a full stop.
   */
  function HintText(events: seq<MarketEvent>): string
  {
    if |events| == 0 then QuietHint
    else
      var listed := if |events| <= MAX_LISTED then events else events[..MAX_LISTED];
      DocketIntro + JoinPhrases(listed) + (if |events| > MAX_LISTED then MoreMark else "") + "."
  }

  /** Events after the third never show in the hint: only the first three and whether more exist matter. */
  lemma HintListsAtMostThree(a: seq<MarketEvent>, b: seq<MarketEvent>)
    requires |a| > MAX_LISTED && |b| > MAX_LISTED
    requires a[..MAX_LISTED] == b[..MAX_LISTED]
    ensures HintText(a) == HintText(b)
  {
  }

  /** The briefing's hint, built the way the boss reads the calendar: one event at a time, stopping after three. */
  method BuildHint(events: seq<MarketEvent>) returns (hint: string)
    ensures hint == HintText(events)
  {
    if |events| == 0 {
      return QuietHint;
    }
    var sb := DocketIntro;
    var shown := 0;
    var i := 0;
    while i < |events|
      invariant 0 <= i <= |events| && i < MAX_LISTED
      invariant shown == i
      invariant sb == DocketIntro + JoinPhrases(events[..i])
      decreases |events| - i
    {
      JoinStep(events, i);
      ghost var joined := JoinPhrases(events[..i]);
      ghost var sep := if shown > 0 then ", " else "";
      if shown > 0 {
        sb := sb + ", ";
      }
      sb := sb + Phrase(events[i]);
      assert sb == DocketIntro + (joined + sep + Phrase(events[i]));
      shown := shown + 1;
      i := i + 1;
      if shown == MAX_LISTED {
        break;
      }
    }
    assert i == (if |events| <= MAX_LISTED then |events| else MAX_LISTED);
    assert events[..i] == (if |events| <= MAX_LISTED then events else events[..MAX_LISTED]);
    if |events| > MAX_LISTED {
      sb := sb + MoreMark;
    }
    hint := sb + ".";
  }

  /** What the boss says at the morning briefing. */
  function BriefingLine(events: seq<MarketEvent>): string
  {
    "Morning. Big day on the tape. " + HintText(events) + " Keep the gossip column close."
  }

  // -------------------------------------------------------------- gamble

  const STAKE: int := 100
  const WIN_GAIN: int := 200
  const REP_WIN: int := 2
  const REP_LOSS: int := -2
  /** Reputation change for passing on the gamble, or for taking it without the stake. */
  const REP_DECLINE: int := -2

  // --------------------------------------------------------------- audit

  /** LocalTime: an hour of the day and a minute of the hour. */
  datatype LocalTime = LocalTime(hour: int, minute: int)

  function MinuteOfDay(t: LocalTime): int
  {
    t.hour * 60 + t.minute
  }

  const AUDIT_START_MIN: int := 12 * 60
  const AUDIT_END_MIN: int := 16 * 60 + 30
  /** The width of the draw for the audit minute, never below one. */
  const AUDIT_WINDOW: int := if AUDIT_END_MIN - AUDIT_START_MIN < 1 then 1 else AUDIT_END_MIN - AUDIT_START_MIN
  const AUDIT_PENALTY: int := -6
  /** After an audit, the next one is drawn 7 to 30 days out. */
  const MIN_AUDIT_GAP_DAYS: int := 7
  const AUDIT_GAP_DRAW: int := 24

  /**
   * The audit time for a draw in the window: a valid time of day, the
   * drawn minute after noon, falling between 12:00 and 16:29.
   */
  function AuditTimeFor(roll: int): (t: LocalTime)
    requires 0 <= roll < AUDIT_WINDOW
    ensures 0 <= t.minute < 60 && 12 <= t.hour <= 16
    ensures MinuteOfDay(t) == AUDIT_START_MIN + roll
    ensures AUDIT_START_MIN <= MinuteOfDay(t) < AUDIT_END_MIN
    ensures t.hour == 16 ==> t.minute < 30
  {
    var minute := AUDIT_START_MIN + roll;
    LocalTime(minute / 60, minute % 60)
  }

  /** All of the controller's day flags and audit fields at one moment. */
  datatype Flags = Flags(
    briefingShownToday: bool,
    npc2VisitShownToday: bool,
    socialiteShownToday: bool,
    gambledToday: bool,
    gambledSinceLastAudit: bool,
    auditScheduledToday: bool,
    auditTime: Option<LocalTime>,
    daysUntilNextAudit: int)

  class Controller {
    var briefingShownToday: bool
    var npc2VisitShownToday: bool
    var socialiteShownToday: bool
    var gambledToday: bool
    var gambledSinceLastAudit: bool
    var auditScheduledToday: bool
    var auditTime: Option<LocalTime>
    var daysUntilNextAudit: int

    function State(): Flags
      reads this
    {
      Flags(briefingShownToday, npc2VisitShownToday, socialiteShownToday, gambledToday,
            gambledSinceLastAudit, auditScheduledToday, auditTime, daysUntilNextAudit)
    }

    constructor ()
      ensures State() == Flags(false, false, false, false, false, false, None, 0)
    {
      briefingShownToday := false;
      npc2VisitShownToday := false;
      socialiteShownToday := false;
      gambledToday := false;
      gambledSinceLastAudit := false;
      auditScheduledToday := false;
      auditTime := None;
      daysUntilNextAudit := 0;
    }

    /**
     * The morning briefing, at most once a day: a second call the same day
     * says nothing and changes nothing.
     */
    method MorningBrief(todaysEvents: seq<MarketEvent>) returns (dialogue: Option<string>)
      modifies this
      ensures old(briefingShownToday) ==> dialogue == None && State() == old(State())
      ensures !old(briefingShownToday) ==>
                dialogue == Some(BriefingLine(todaysEvents)) &&
                State() == old(State()).(briefingShownToday := true)
    {
      if briefingShownToday {
        return None;
      }
      briefingShownToday := true;
      var hint := BuildHint(todaysEvents);
      dialogue := Some("Morning. Big day on the tape. " + hint + " Keep the gossip column close.");
    }

    /**
     * The energy trader's visit, at most once a day; `offered` says whether
     * the gamble was put to the player this time.
     */
    method EnergyGamble() returns (offered: bool)
      modifies this
      ensures offered <==> !old(npc2VisitShownToday)
      ensures !offered ==> State() == old(State())
      ensures offered ==> State() == old(State()).(npc2VisitShownToday := true)
    {
      if npc2VisitShownToday {
        return false;
      }
      npc2VisitShownToday := true;
      offered := true;
    }

    /**
     * The player takes the gamble with `cash` in hand; `win` is the coin
     * toss. Without the stake it only costs reputation; with it, the stake
     * is paid, a win pays out, and the gamble is remembered for the audit.
     */
    method TakeGamble(cash: int, win: bool) returns (newCash: int, repChange: int)
      modifies this
      ensures cash < STAKE ==> newCash == cash && repChange == REP_DECLINE && State() == old(State())
      ensures cash >= STAKE ==>
                && newCash == cash - STAKE + (if win then WIN_GAIN else 0)
                && repChange == (if win then REP_WIN else REP_LOSS)
                && State() == old(State()).(gambledToday := true, gambledSinceLastAudit := true)
    {
      if cash < STAKE {
        return cash, REP_DECLINE;
      }
      gambledToday := true;
      gambledSinceLastAudit := true;
      newCash := cash - STAKE;
      if win {
        newCash := newCash + WIN_GAIN;
        repChange := REP_WIN;
      } else {
        repChange := REP_LOSS;
      }
    }

    /** Puts the audit at the drawn minute of today's window. */
    method ScheduleAuditForToday(roll: int)
      requires 0 <= roll < AUDIT_WINDOW
      modifies this
      ensures auditScheduledToday && auditTime.Some?
      ensures AUDIT_START_MIN <= MinuteOfDay(auditTime.value) < AUDIT_END_MIN
      ensures State() == old(State()).(auditScheduledToday := true, auditTime := Some(AuditTimeFor(roll)))
    {
      var minute := AUDIT_START_MIN + roll;
      auditTime := Some(LocalTime(minute / 60, minute % 60));
      auditScheduledToday := true;
    }

    /**
     * The audit: a reputation penalty exactly when the player gambled since
     * the last audit, then the gamble is forgiven, the audit unscheduled,
     * and, if no next audit is pending, the next one drawn 7 to 30 days out.
     */
    method ShowAudit(roll: int) returns (repChange: int)
      requires 0 <= roll < AUDIT_GAP_DRAW
      modifies this
      ensures repChange == (if old(gambledSinceLastAudit) then AUDIT_PENALTY else 0)
      ensures !gambledSinceLastAudit && !auditScheduledToday && auditTime == None
      ensures old(daysUntilNextAudit) <= 0 ==> 7 <= daysUntilNextAudit <= 30
      ensures old(daysUntilNextAudit) > 0 ==> daysUntilNextAudit == old(daysUntilNextAudit)
      ensures State() == old(State()).(gambledSinceLastAudit := false, auditScheduledToday := false,
                                       auditTime := None, daysUntilNextAudit := daysUntilNextAudit)
    {
      repChange := 0;
      if gambledSinceLastAudit {
        repChange := AUDIT_PENALTY;
      }
      gambledSinceLastAudit := false;
      if daysUntilNextAudit <= 0 {
        daysUntilNextAudit := roll + MIN_AUDIT_GAP_DAYS;
      }
      auditScheduledToday := false;
      auditTime := None;
    }
  }
}
