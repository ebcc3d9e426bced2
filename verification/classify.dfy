/** The fixed-threshold classifiers of the inventory table and the transfer list. */
module Classify {

  import opened Records

  /** Demand above this is graded High in the inventory table. */
  const HighDemandAbove: real := 250.0
  /** Demand above this (and not above HighDemandAbove) is graded Medium. */
  const MediumDemandAbove: real := 100.0
  /** Days to expiry at or below this are Critical / High priority. */
  const CriticalWithinDays: int := 7
  /** Days to expiry at or below this (and above CriticalWithinDays) are a Warning. */
  const WarningWithinDays: int := 30
  /** Days to expiry at or below this (and above CriticalWithinDays) are Medium priority. */
  const MediumPriorityWithinDays: int := 15

  datatype ExpiryStatus = Critical | Warning | Good

  /** The demand tier shown for a predicted demand value. */
  function ClassifyDemand(v: real): (t: Level)
    ensures t == High <==> v > 250.0
    ensures t == Medium <==> 100.0 < v <= 250.0
    ensures t == Low <==> v <= 100.0
  {
    if v > HighDemandAbove then High
    else if v > MediumDemandAbove then Medium
    else Low
  }

  /** The expiry badge shown for a number of days to expiry. */
  function GetExpiryStatus(days: int): (s: ExpiryStatus)
    ensures s == Critical <==> days <= 7
    ensures s == Warning <==> 7 < days <= 30
    ensures s == Good <==> days > 30
  {
    if days <= CriticalWithinDays then Critical
    else if days <= WarningWithinDays then Warning
    else Good
  }

  /** The priority badge shown for a suggested transfer. */
  function GetPriority(days: int): (p: Level)
    ensures p == High <==> days <= 7
    ensures p == Medium <==> 7 < days <= 15
    ensures p == Low <==> days > 15
  {
    if days <= CriticalWithinDays then High
    else if days <= MediumPriorityWithinDays then Medium
    else Low
  }

  /** The expiry badge and the transfer priority share their most urgent band,
      and an already expired item is graded like one expiring today. */
  lemma UrgentBandsAgree(days: int)
    ensures GetExpiryStatus(days) == Critical <==> GetPriority(days) == High
    ensures days < 0 ==> GetExpiryStatus(days) == GetExpiryStatus(0)
    ensures days < 0 ==> GetPriority(days) == GetPriority(0)
  {
  }

  /** Both day-based classifiers only get less urgent as the days grow. */
  lemma DayClassifiersMonotone(d1: int, d2: int)
    requires d1 <= d2
    ensures GetExpiryStatus(d2) == Critical ==> GetExpiryStatus(d1) == Critical
    ensures GetExpiryStatus(d1) == Good ==> GetExpiryStatus(d2) == Good
    ensures GetPriority(d2) == High ==> GetPriority(d1) == High
    ensures GetPriority(d1) == Low ==> GetPriority(d2) == Low
  {
  }
}
