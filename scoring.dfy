/** Score validation for client updates and the weighted draw of the simulated opponents
    (src/rooms/DerbyRoom.ts:69, 114-124, 347-367). */
module Scoring {
  import opened Wrappers
  import opened Ranges

  /** The only score increases a client may claim in one message (`ALLOWED_STEPS`). */
  const ALLOWED_STEPS: set<int> := {1, 2, 4}

  /** Truncation of a finite number toward zero, the integer part `v | 0` starts from. */
  function TruncateTowardZero(v: real): (r: int)
    ensures v >= 0.0 ==> r as real <= v < r as real + 1.0
    ensures v < 0.0 ==> r as real - 1.0 < v <= r as real
  {
    if v >= 0.0 then v.Floor else -((-v).Floor)
  }

  /** JavaScript's ToInt32: the integer taken modulo 2^32 into [-2^31, 2^31). */
  function ToInt32(n: int): (r: int)
    ensures -0x8000_0000 <= r < 0x8000_0000
    ensures (r - n) % 0x1_0000_0000 == 0
  {
    (n + 0x8000_0000) % 0x1_0000_0000 - 0x8000_0000
  }

  /** `safeInt`: `v | 0` for a finite number, the current score otherwise. */
  function SafeInt(input: Option<real>, current: int): int
  {
    match input
    case Some(v) => ToInt32(TruncateTowardZero(v))
    case None => current
  }

  /** `Math.min(Math.max(safeInt(v), 0), puntiVittoria)`: the score a message asks for. */
  function ScoreTarget(input: Option<real>, current: int, winScore: nat): (r: int)
    ensures 0 <= r <= winScore
    ensures SafeInt(input, current) <= 0 ==> r == 0
    ensures 0 <= SafeInt(input, current) <= winScore ==> r == SafeInt(input, current)
    ensures SafeInt(input, current) >= winScore ==> r == winScore
  {
    var t := SafeInt(input, current);
    var low := if t < 0 then 0 else t;
    if low < winScore then low else winScore
  }

  /** The soft-authoritative check: Some(new score) when the message is accepted, None when it
      is ignored. A message is accepted exactly when its clamped target lies 1, 2 or 4 above the
      current score. */
  function AcceptScore(input: Option<real>, current: int, winScore: nat): (r: Option<int>)
    ensures r.Some? <==> ScoreTarget(input, current, winScore) - current in ALLOWED_STEPS
    ensures r.Some? ==> r.value == ScoreTarget(input, current, winScore)
    ensures r.Some? ==> current < r.value <= winScore && r.value - current in ALLOWED_STEPS
  {
    var target := ScoreTarget(input, current, winScore);
    var delta := target - current;
    if delta <= 0 || delta !in ALLOWED_STEPS then None else Some(target)
  }

  /** A non-finite message falls back to the current score, so its delta is 0 and it is ignored. */
  lemma NonFiniteScoreIgnored(current: int, winScore: nat)
    requires 0 <= current <= winScore
    ensures ScoreTarget(None, current, winScore) == current
    ensures AcceptScore(None, current, winScore) == None
  {
  }

  /** A whole number inside the 32-bit range is read literally by `v | 0`. */
  lemma IntegerInputReadLiterally(v: int, current: int)
    requires -0x8000_0000 <= v < 0x8000_0000
    ensures SafeInt(Some(v as real), current) == v
  {
    assert TruncateTowardZero(v as real) == v;
  }

  /** A finite number outside the 32-bit range wraps: 2^32 + 5 is read as 5, so a client at 3
      points that sends it is moved to 5. */
  lemma WrappedInputAccepted()
    ensures SafeInt(Some(4294967301.0), 3) == 5
    ensures AcceptScore(Some(4294967301.0), 3, 21) == Some(5)
  {
    assert TruncateTowardZero(4294967301.0) == 4294967301;
  }

  /** One weighted bucket of the bots' draw: `{ s: step, w: weight }`. */
  datatype Bucket = Bucket(step: int, weight: nat)

  /** `WEIGHTS` of `_runBots`: +1 with weight 85, +2 with weight 14, +4 with weight 1. */
  const WEIGHTS: seq<Bucket> := [Bucket(1, 85), Bucket(2, 14), Bucket(4, 1)]

  /** Sum of the weights of the first n buckets. */
  function Cumulative(ws: seq<Bucket>, n: nat): nat
    requires n <= |ws|
  {
    if n == 0 then 0 else Cumulative(ws, n - 1) + ws[n - 1].weight
  }

  /** `totalW`, the range of the draw `Math.floor(Math.random() * totalW)`. */
  function TotalWeight(): nat
  {
    Cumulative(WEIGHTS, |WEIGHTS|)
  }

  /** The step a draw selects, in closed form: the first bucket whose cumulative weight exceeds
      the draw; a draw outside every bucket keeps the default step 1. */
  function StepForDraw(r: int): (step: int)
    ensures step in ALLOWED_STEPS
  {
    if r < 85 then 1 else if r < 99 then 2 else if r < 100 then 4 else 1
  }

  /** The loop of the bot tick that turns a draw into a step. */
  method WeightedPick(r: int) returns (pick: int)
    ensures pick == StepForDraw(r)
    ensures 0 <= r < 85 ==> pick == 1
    ensures 85 <= r < 99 ==> pick == 2
    ensures r == 99 ==> pick == 4
  {
    assert Cumulative(WEIGHTS, 1) == 85 && Cumulative(WEIGHTS, 2) == 99 && Cumulative(WEIGHTS, 3) == 100;
    var rem := r;
    pick := 1;
    var i := 0;
    while i < |WEIGHTS|
      invariant 0 <= i <= |WEIGHTS|
      invariant rem == r - Cumulative(WEIGHTS, i)
      invariant i == 0 || r >= Cumulative(WEIGHTS, i)
      invariant pick == 1
    {
      if rem < WEIGHTS[i].weight {
        pick := WEIGHTS[i].step;
        break;
      }
      rem := rem - WEIGHTS[i].weight;
      i := i + 1;
    }
  }

  /** The draws that select a given step are exactly the integers lo <= r < hi. */
  lemma DrawsSelecting(step: int, lo: int, hi: int)
    requires 0 <= lo <= hi <= 100
    requires forall r :: 0 <= r < 100 ==> (StepForDraw(r) == step <==> lo <= r < hi)
    ensures |set r | 0 <= r < 100 && StepForDraw(r) == step| == hi - lo
  {
    assert (set r | 0 <= r < 100 && StepForDraw(r) == step) == Range(lo, hi);
    RangeSize(lo, hi);
  }

  /** The draw honours the weights: of the TotalWeight() equally likely draws, 85 select +1,
      14 select +2 and 1 selects +4. */
  lemma DrawFrequencies()
    ensures TotalWeight() == 100
    ensures |set r | 0 <= r < TotalWeight() && StepForDraw(r) == 1| == 85
    ensures |set r | 0 <= r < TotalWeight() && StepForDraw(r) == 2| == 14
    ensures |set r | 0 <= r < TotalWeight() && StepForDraw(r) == 4| == 1
  {
    assert Cumulative(WEIGHTS, 1) == 85 && Cumulative(WEIGHTS, 2) == 99 && Cumulative(WEIGHTS, 3) == 100;
    DrawsSelecting(1, 0, 85);
    DrawsSelecting(2, 85, 99);
    DrawsSelecting(4, 99, 100);
  }
}
