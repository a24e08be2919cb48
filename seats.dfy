/** Seat allocation: the lowest free seat for a joining player, and the free seats the
    simulated opponents take at launch (src/rooms/DerbyRoom.ts:320-343). */
module Seats {
  import opened Ranges
  import opened Roster

  /** The seat loop of `_assignNumeroGiocatore`, given the seats in use: the lowest seat in
      1..maxClients nobody holds; when every seat is held, `min(used.size + 1, maxClients)`. */
  method LowestFreeSeat(used: set<int>, maxClients: int) returns (seat: int)
    ensures seat == SeatChoice(used, maxClients)
    ensures (exists s :: 1 <= s <= maxClients && s !in used) ==>
              1 <= seat <= maxClients && seat !in used && forall s :: 1 <= s < seat ==> s in used
    ensures (forall s :: 1 <= s <= maxClients ==> s in used) ==>
              seat == if |used| + 1 < maxClients then |used| + 1 else maxClients
    ensures maxClients >= 1 ==> 1 <= seat <= maxClients
  {
    var i := 1;
    while i <= maxClients
      invariant 1 <= i
      invariant i <= maxClients + 1 || i == 1
      invariant forall s :: 1 <= s < i ==> s in used
    {
      if i !in used {
        return i;
      }
      i := i + 1;
    }
    seat := if |used| + 1 < maxClients then |used| + 1 else maxClients;
  }

  /** Pigeonhole: fewer seats in use than maxClients leaves a seat free, so the fallback of
      `_assignNumeroGiocatore` is not reached. */
  lemma FreeSeatWhenRoom(used: set<int>, maxClients: int)
    requires |used| < maxClients
    ensures exists s :: 1 <= s <= maxClients && s !in used
  {
    if forall s :: 1 <= s <= maxClients ==> s in used {
      assert Range(1, maxClients + 1) <= used;
      RangeSize(1, maxClients + 1);
      SubsetSize(Range(1, maxClients + 1), used);
      assert false;
    }
  }

  /** With fewer players than seats and no seat shared, a joining player gets a seat nobody
      holds. */
  lemma JoinFindsFreeSeat(players: map<Sid, Player>, maxClients: int)
    requires |players| < maxClients
    ensures exists s :: 1 <= s <= maxClients && s !in UsedSeats(players)
  {
    UsedSeatsSize(players);
    FreeSeatWhenRoom(UsedSeats(players), maxClients);
  }

  /** m is the lowest seat in 1..maxClients that is not in use. */
  ghost predicate LowestFree(used: set<int>, maxClients: int, m: int)
  {
    1 <= m <= maxClients && m !in used && forall t :: 1 <= t < m ==> t in used
  }

  /** Some lowest free seat exists as soon as one seat is free: searching upward from a seat
      lo with every seat below it held reaches it by s. */
  lemma {:induction false} LowestFreeExists(used: set<int>, maxClients: int, s: int, lo: int)
    requires 1 <= lo <= s <= maxClients && s !in used
    requires forall t :: 1 <= t < lo ==> t in used
    ensures exists m :: LowestFree(used, maxClients, m)
    decreases s - lo
  {
    if lo in used {
      LowestFreeExists(used, maxClients, s, lo + 1);
    } else {
      assert LowestFree(used, maxClients, lo);
    }
  }

  /** The seat `_assignNumeroGiocatore` picks: the lowest free seat in 1..maxClients, or
      `min(used.size + 1, maxClients)` when none is free. */
  ghost function SeatChoice(used: set<int>, maxClients: int): int
  {
    if exists s :: 1 <= s <= maxClients && s !in used then
      var s0 :| 1 <= s0 <= maxClients && s0 !in used;
      LowestFreeExists(used, maxClients, s0, 1);
      var m :| LowestFree(used, maxClients, m);
      m
    else if |used| + 1 < maxClients then |used| + 1 else maxClients
  }

  /** The seat a leaving player held is free again once its entry is deleted. */
  lemma ReleasedSeatIsFree(players: map<Sid, Player>, sid: Sid)
    requires SeatsDistinct(players)
    requires sid in players
    ensures players[sid].seat !in UsedSeats(players - {sid})
    ensures UsedSeats(players - {sid}) == UsedSeats(players) - {players[sid].seat}
  {
    var rest := players - {sid};
    forall s | s in UsedSeats(rest) ensures s != players[sid].seat {
      SeatHolder(rest, s);
      var other :| other in rest && rest[other].seat == s;
    }
    forall s | s in UsedSeats(players) - {players[sid].seat} ensures s in UsedSeats(rest) {
      SeatHolder(players, s);
      var other :| other in players && players[other].seat == s;
      assert other in rest;
    }
  }

  /** The free seats 1..n in increasing order: the seats `_spawnBotsIfNeeded` fills. */
  function FreeSeats(used: set<int>, n: int): seq<int>
    decreases n
  {
    if n < 1 then [] else FreeSeats(used, n - 1) + (if n in used then [] else [n])
  }

  /** `FreeSeats` lists exactly the seats 1..n nobody uses, in increasing order. */
  lemma {:induction false} FreeSeatsCorrect(used: set<int>, n: int)
    ensures forall s :: s in FreeSeats(used, n) <==> 1 <= s <= n && s !in used
    ensures forall i, j :: 0 <= i < j < |FreeSeats(used, n)| ==> FreeSeats(used, n)[i] < FreeSeats(used, n)[j]
    decreases n
  {
    if n >= 1 {
      var lower := FreeSeats(used, n - 1);
      FreeSeatsCorrect(used, n - 1);
      assert forall i :: 0 <= i < |lower| ==> lower[i] in lower;
    }
  }

  /** The opponents `_spawnBotsIfNeeded` adds, one per seat in `free`. */
  function BotMap(free: seq<int>): map<Sid, Player>
    decreases |free|
  {
    if free == [] then map[]
    else BotMap(free[..|free| - 1])[Bot(free[|free| - 1]) := BotPlayer(free[|free| - 1])]
  }

  /** `BotMap` holds one opponent per seat of `free`, keyed by the id of its seat. */
  lemma {:induction false} BotMapCorrect(free: seq<int>)
    ensures forall sid :: sid in BotMap(free) <==> sid.Bot? && sid.seat in free
    ensures forall sid :: sid in BotMap(free) ==> BotMap(free)[sid] == BotPlayer(sid.seat)
    decreases |free|
  {
    if free != [] {
      var front := free[..|free| - 1];
      BotMapCorrect(front);
      assert free == front + [free[|free| - 1]];
      forall s ensures s in free <==> s in front || s == free[|free| - 1] {
      }
    }
  }

  /** Their ids, in the order they are inserted into the players map. */
  function BotSids(free: seq<int>): seq<Sid>
  {
    seq(|free|, k requires 0 <= k < |free| => Bot(free[k]))
  }

  /** The ids listed by `BotSids` are exactly the keys of `BotMap`. */
  lemma BotSidsKeys(free: seq<int>)
    ensures forall sid :: sid in BotSids(free) <==> sid in BotMap(free)
  {
    BotMapCorrect(free);
    forall sid | sid in BotMap(free) ensures sid in BotSids(free) {
      var k :| 0 <= k < |free| && free[k] == sid.seat;
      assert BotSids(free)[k] == sid;
    }
  }

  /** Their entries in the `bots` list. */
  function BotInfos(free: seq<int>): seq<BotInfo>
  {
    seq(|free|, k requires 0 <= k < |free| => BotInfo(Bot(free[k]), free[k]))
  }
}
