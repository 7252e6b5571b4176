/**
 * The message the event manager publishes for every scheduled or fired
 * market event, and the event kinds it classifies events into. The
 * creation timestamp the message also carries is not modelled.
 */
module Events {

  datatype MarketEvent = MarketEvent(kind: string, country: string, detail: string)

  const OIL_SUPPLY: string := "OIL_SUPPLY"
  const OPEC: string := "OPEC"
  const RATE_HIKE: string := "RATE_HIKE"
  const EARNINGS: string := "EARNINGS"
  const NEWS: string := "NEWS"

  /** The only country the manager ever stamps on an event. */
  const GLOBAL: string := "GLOBAL"
}
