/** The status a contest row shows, from the current time and the contest's
    start and end, all as integer timestamps. */
module ContestList {

  datatype ContestStatus = Scheduled | Running | Finished

  /** `getContestStatus`: before the start it is scheduled, from the start
      to the end inclusive it is running, otherwise finished. */
  function GetContestStatus(now: int, start: int, end: int): (s: ContestStatus)
    ensures s == Scheduled <==> now < start
    ensures s == Running <==> start <= now <= end
    ensures s == Finished <==> !(now < start) && !(start <= now <= end)
  {
    if now < start then Scheduled
    else if now >= start && now <= end then Running
    else Finished
  }

  /** A contest that ends before it starts is never running. */
  lemma NeverRunningWhenInverted(now: int, start: int, end: int)
    requires start > end
    ensures GetContestStatus(now, start, end) != Running
  {
  }

  /** With the window the right way round, finished means past the end. */
  lemma FinishedMeansPastEnd(now: int, start: int, end: int)
    requires start <= end
    ensures GetContestStatus(now, start, end) == Finished <==> now > end
  {
  }

  function Stage(s: ContestStatus): nat {
    match s
    case Scheduled => 0
    case Running => 1
    case Finished => 2
  }

  /** As time passes the status only moves forward: scheduled, then running,
      then finished. */
  lemma StatusIsMonotone(now1: int, now2: int, start: int, end: int)
    requires start <= end && now1 <= now2
    ensures Stage(GetContestStatus(now1, start, end)) <= Stage(GetContestStatus(now2, start, end))
  {
  }
}
