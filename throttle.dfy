/** `generate_single_thumbnail`: ad-hoc thumbnail generation gated so that it starts no
    sooner than one second after the last thumbnail this gate saw generated. Time is a
    monotonic clock in milliseconds; the time the generation itself takes is a parameter. */
module Throttle {

  import opened Outcomes
  import opened Paths
  import opened Extensions
  import opened ThumbKeys
  import opened ThumbStore
  import opened Thumbnailer

  const ONE_SEC_MS: int := 1000

  /** When gated work may start, given the last generation instant and the time of the
      call: at once when a second has passed, otherwise exactly one second after the last
      generation. */
  function StartTime(last: int, now: int): (start: int)
    requires last <= now
    ensures start >= now && start >= last + ONE_SEC_MS
    ensures start == now || start == last + ONE_SEC_MS
  {
    var elapsed := now - last;
    if elapsed < ONE_SEC_MS then now + (ONE_SEC_MS - elapsed) else now
  }

  /** The gate's new instant: the completion time after a `Generated` outcome, otherwise
      (`Skipped`, or an error returned early) unchanged. */
  function NextLast(last: int, finished: int, outcome: Result<(ThumbKey, GenerationStatus), NonCriticalError>): (r: int)
    ensures r == finished <==> (outcome.Ok? && outcome.value.1 == Generated) || last == finished
    ensures r != finished ==> r == last
  {
    if outcome.Ok? && outcome.value.1 == Generated then finished else last
  }

  /** The process clock (`tokio::time::Instant`). */
  class Clock {
    var now: int

    constructor (start: int)
      ensures now == start
    {
      now := start;
    }

    /** `sleep(d)`. */
    method Sleep(d: nat)
      modifies this
      ensures now == old(now) + d
    {
      now := now + d;
    }
  }

  /** `LAST_SINGLE_THUMB_GENERATED_LOCK`: the instant of the last single-item generation. */
  class SingleThumbnailGate {
    var lastGenerated: int

    constructor (created: int)
      ensures lastGenerated == created
    {
      lastGenerated := created;
    }

    /** `generate_single_thumbnail`: wait out the remainder of the second, run
        `generate_thumbnail` without forcing regeneration (taking `workMs`), and move the
        gate's instant to the completion time only when a thumbnail was generated. */
    method GenerateSingleThumbnail(
      clock: Clock, fs: FileSystem, cat: Catalogue, encode: Path -> Encoding,
      thumbnailsDirectory: Path, extension: string, casId: string, path: Path, kind: ThumbnailKind,
      workMs: nat)
      returns (r: Result<(), NonCriticalError>)
      requires lastGenerated <= clock.now
      requires |casId| >= 3
      modifies this, clock, fs
      ensures var (outcome, st) := GenerateThumbnailResult(old(fs.State()), fs.faults, cat, encode,
          thumbnailsDirectory, GenerateThumbnailArgs(extension, casId, path), kind, false);
        && fs.State() == st
        && clock.now == StartTime(old(lastGenerated), old(clock.now)) + workMs
        && lastGenerated == NextLast(old(lastGenerated), clock.now, outcome)
        && r == (if outcome.Ok? then Ok(()) else Err(outcome.error))
      ensures lastGenerated <= clock.now
    {
      var elapsed := clock.now - lastGenerated;
      if elapsed < ONE_SEC_MS {
        clock.Sleep(ONE_SEC_MS - elapsed);
      }
      var outcome := GenerateThumbnail(fs, cat, encode, thumbnailsDirectory,
        GenerateThumbnailArgs(extension, casId, path), kind, false);
      clock.Sleep(workMs);
      if outcome.Err? {
        return Err(outcome.error);
      }
      if outcome.value.1 == Generated {
        lastGenerated := clock.now;
      }
      r := Ok(());
    }
  }

  /** Two successive single-item calls: after a call that generated a thumbnail, the next
      one starts at least a second after that generation finished. */
  lemma {:induction false} SpacedAfterGenerated(last: int, now1: int, workMs: nat, now2: int,
    outcome: Result<(ThumbKey, GenerationStatus), NonCriticalError>)
    requires last <= now1
    requires outcome.Ok? && outcome.value.1 == Generated
    requires StartTime(last, now1) + workMs <= now2
    ensures var finished := StartTime(last, now1) + workMs;
      StartTime(NextLast(last, finished, outcome), now2) >= finished + ONE_SEC_MS
  {
    var finished := StartTime(last, now1) + workMs;
    assert NextLast(last, finished, outcome) == finished;
  }

  /** A call that skipped, or failed, does not push back the next call: its start depends
      only on the generation before it. */
  lemma {:induction false} SkippedDoesNotDelay(last: int, now1: int, workMs: nat, now2: int,
    outcome: Result<(ThumbKey, GenerationStatus), NonCriticalError>)
    requires last <= now1
    requires !(outcome.Ok? && outcome.value.1 == Generated)
    requires StartTime(last, now1) + workMs <= now2
    ensures var finished := StartTime(last, now1) + workMs;
      StartTime(NextLast(last, finished, outcome), now2) == StartTime(last, now2)
  {
    var finished := StartTime(last, now1) + workMs;
    assert NextLast(last, finished, outcome) == last;
  }
}
