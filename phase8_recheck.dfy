/** `agents/phase8/post_publish_hallucination_recheck_agent.py`: content is
    rechecked when it was never checked or was last checked more than a
    day ago. The clock reading is a parameter. */
module HallucinationRecheck {
  import opened Wrappers

  const RecheckInterval: real := 86400.0

  datatype Report = Report(contentId: string, hallucinationRechecked: bool, nextCheckAfterSec: int)

  /** `PostPublishHallucinationRecheckAgent.execute` at clock reading
      `now`; missing `content_id` is "". */
  function Recheck(contentId: Option<string>, lastCheckedTs: Option<real>, now: real): (r: Report)
    ensures r.contentId == contentId.GetOr("") && r.nextCheckAfterSec == 86400
  {
    var stale := lastCheckedTs.None? || now - lastCheckedTs.value > 24.0 * 3600.0;
    Report(contentId.GetOr(""), stale, 24 * 3600)
  }

  /** Stale exactly when no check is recorded or more than a full day has
      passed; a gap of exactly one day is not stale. */
  lemma RecheckRule(contentId: Option<string>, last: real, now: real)
    ensures Recheck(contentId, None, now).hallucinationRechecked
    ensures Recheck(contentId, Some(last), now).hallucinationRechecked <==> now > last + RecheckInterval
    ensures !Recheck(contentId, Some(last), last + RecheckInterval).hallucinationRechecked
  {
  }

  /** Once stale, content stays stale as the clock moves on. */
  lemma RecheckMonotone(contentId: Option<string>, last: Option<real>, now: real, later: real)
    requires now <= later && Recheck(contentId, last, now).hallucinationRechecked
    ensures Recheck(contentId, last, later).hallucinationRechecked
  {
  }
}
