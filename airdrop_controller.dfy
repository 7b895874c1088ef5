/**
 * The airdrop cooldown: a user may ask for test funds again once an hour has
 * passed since the most recent request on record.
 */
module AirdropController {
  import opened Wrappers

  /** One row of the `airdropRequest` table; `createdAt` in milliseconds. */
  datatype AirdropRequest = AirdropRequest(userId: int, createdAt: int)

  const OneHourInMs: int := 60 * 60 * 1000

  /** The `createdAt` of the user's most recent request, if any. */
  function LastAirdrop(log: seq<AirdropRequest>, userId: int): (last: Option<int>)
    ensures last.None? <==> forall i :: 0 <= i < |log| ==> log[i].userId != userId
    ensures last.Some? ==>
      exists i :: 0 <= i < |log| && log[i].userId == userId && log[i].createdAt == last.value
    ensures last.Some? ==>
      forall i :: 0 <= i < |log| && log[i].userId == userId ==> log[i].createdAt <= last.value
    decreases |log|
  {
    if log == [] then None
    else
      var earlier := LastAirdrop(log[..|log| - 1], userId);
      var final := log[|log| - 1];
      if final.userId != userId then earlier
      else if earlier.Some? && earlier.value >= final.createdAt then earlier
      else Some(final.createdAt)
  }

  /**
   * `canRequestAirdrop`: allowed when the user has no request on record, or when
   * at least an hour has passed since the most recent one.
   */
  function CanRequestAirdrop(log: seq<AirdropRequest>, userId: int, now: int): (allowed: bool)
    ensures allowed <==>
      forall i :: 0 <= i < |log| && log[i].userId == userId ==> now - log[i].createdAt >= OneHourInMs
  {
    var last := LastAirdrop(log, userId);
    last.None? || now - last.value >= OneHourInMs
  }

  /**
   * `recordAirdropRequest`: one new row for the user, stamped with the current
   * time, after the rows already on record; the user's most recent request is then
   * no earlier than now.
   */
  function RecordAirdropRequest(log: seq<AirdropRequest>, userId: int, now: int): (r: seq<AirdropRequest>)
    ensures |r| == |log| + 1 && r[..|log|] == log && r[|log|] == AirdropRequest(userId, now)
    ensures LastAirdrop(r, userId).Some? && LastAirdrop(r, userId).value >= now
  {
    log + [AirdropRequest(userId, now)]
  }

  /** With nothing on record, an airdrop is allowed at any time. */
  lemma FirstAirdropAllowed(log: seq<AirdropRequest>, userId: int, now: int)
    requires forall i :: 0 <= i < |log| ==> log[i].userId != userId
    ensures CanRequestAirdrop(log, userId, now)
  {
  }

  /** Exactly one hour after the last request is already allowed; one millisecond less is not. */
  lemma CooldownBoundary(log: seq<AirdropRequest>, userId: int, last: int)
    requires LastAirdrop(log, userId) == Some(last)
    ensures CanRequestAirdrop(log, userId, last + OneHourInMs)
    ensures !CanRequestAirdrop(log, userId, last + OneHourInMs - 1)
  {
  }

  /** With the log unchanged, once allowed stays allowed as time passes. */
  lemma CooldownMonotone(log: seq<AirdropRequest>, userId: int, t: int, later: int)
    requires t <= later
    requires CanRequestAirdrop(log, userId, t)
    ensures CanRequestAirdrop(log, userId, later)
  {
  }

  /** Recording a request adds one row and denies the same user for the following hour. */
  lemma RecordStartsCooldown(log: seq<AirdropRequest>, userId: int, now: int, t: int)
    requires now <= t < now + OneHourInMs
    ensures |RecordAirdropRequest(log, userId, now)| == |log| + 1
    ensures !CanRequestAirdrop(RecordAirdropRequest(log, userId, now), userId, t)
  {
    var log' := RecordAirdropRequest(log, userId, now);
    assert log'[|log|].userId == userId && t - log'[|log|].createdAt < OneHourInMs;
  }

  /** Recording a request for one user does not change the answer for another. */
  lemma RecordIsPerUser(log: seq<AirdropRequest>, userId: int, other: int, now: int, t: int)
    requires other != userId
    ensures CanRequestAirdrop(RecordAirdropRequest(log, userId, now), other, t) == CanRequestAirdrop(log, other, t)
  {
    var log' := RecordAirdropRequest(log, userId, now);
    assert forall i :: 0 <= i < |log| ==> log'[i] == log[i];
  }
}
