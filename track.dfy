/** The progress axis of the race track, shared with the client (src/rooms/DerbyRoom.ts:21-22). */
module Track {

  /** x of every horse at the start line. */
  const TRACK_X_START: real := 0.0
  /** Distance a horse moves along x for one point. */
  const STEP_X: real := 0.2

  /** The authoritative x for a score: `TRACK_X_START + STEP_X * punti`. */
  function XForScore(score: int): real
  {
    TRACK_X_START + STEP_X * score as real
  }

  /** Lowest x a client may report (one unit behind the start line). */
  function MinX(): real
  {
    TRACK_X_START - 1.0
  }

  /** Highest x a client may report (one unit past the finish for `winScore` points). */
  function MaxX(winScore: int): real
  {
    TRACK_X_START + STEP_X * winScore as real + 1.0
  }

  /** `Math.max(minX, Math.min(maxX, v))`: the reported x pulled back onto the track. */
  function ClampX(v: real, winScore: nat): (r: real)
    ensures MinX() <= r <= MaxX(winScore)
    ensures MinX() <= v <= MaxX(winScore) ==> r == v
    ensures v < MinX() ==> r == MinX()
    ensures v > MaxX(winScore) ==> r == MaxX(winScore)
  {
    var capped := if MaxX(winScore) < v then MaxX(winScore) else v;
    if capped < MinX() then MinX() else capped
  }

  /** The authoritative x of every legal score lies inside the band a client may report,
      and a higher score is never placed behind a lower one. */
  lemma XForScoreOnTrack(score: int, winScore: nat)
    requires 0 <= score <= winScore
    ensures MinX() <= XForScore(score) <= MaxX(winScore)
    ensures XForScore(0) == TRACK_X_START
  {
    assert STEP_X * score as real <= STEP_X * winScore as real;
  }

  lemma XForScoreMonotonic(a: int, b: int)
    requires a <= b
    ensures XForScore(a) <= XForScore(b)
  {
  }
}
