/** The entities of one race room: participants, their seats, and the order in which the
    players map lists them (src/rooms/DerbyRoom.ts:27-40, 161-166, 320-343). */
module Roster {
  import opened Text
  import Ranges

  /** A session id. Human participants carry the transport's id; a simulated opponent's id is
      derived from its seat (`BOT_<roomId>_<seat>`). The source tells the two kinds apart only by
      the `BOT_` prefix; the tag of `Sid` keeps them apart in the model. */
  datatype Sid = Client(id: string) | Bot(seat: int)

  /** `PlayerState`: seat number, position, score (`punti`) and nickname. */
  datatype Player = Player(seat: int, x: real, y: real, z: real, score: int, nickname: string)

  /** `BotInfo` without its timer handle: the bot's id and seat. */
  datatype BotInfo = BotInfo(sid: Sid, seat: int)

  /** `${roomId}-${Date.now()}`: the room id and the launch (or end) timestamp. */
  datatype MatchId = MatchId(roomId: string, stamp: int)

  /** `${winnerSid}:${matchId}`: the reward idempotency key. */
  datatype Token = Token(winner: Sid, matchId: MatchId)

  /** One entry of the `mappa_iniziale` snapshot. */
  datatype SeatOf = SeatOf(sid: Sid, seat: int)

  /** A fresh human participant: start line, score 0, the optional nickname cut to 24 chars. */
  function NewPlayer(seat: int, nickname: string): (p: Player)
    ensures p.seat == seat && p.score == 0 && p.x == 0.0 && p.y == 0.0 && p.z == 0.0
    ensures p.nickname == Slice(nickname, 24) && |p.nickname| <= 24
  {
    Player(seat, 0.0, 0.0, 0.0, 0, Slice(nickname, 24))
  }

  /** The opponent spawned on a free seat: nickname `BOT <seat>`, start line, score 0. */
  function BotPlayer(seat: int): (p: Player)
    ensures p.seat == seat && p.score == 0 && p.x == 0.0 && p.y == 0.0 && p.z == 0.0
    ensures p.nickname == "BOT " + IntText(seat)
  {
    Player(seat, 0.0, 0.0, 0.0, 0, "BOT " + IntText(seat))
  }

  /** The seat numbers in use (`used` in the seat loops). */
  function UsedSeats(players: map<Sid, Player>): (used: set<int>)
    ensures forall sid :: sid in players ==> players[sid].seat in used
  {
    set sid | sid in players :: players[sid].seat
  }

  /** Every used seat has a holder. */
  lemma SeatHolder(players: map<Sid, Player>, s: int)
    requires s in UsedSeats(players)
    ensures exists sid :: sid in players && players[sid].seat == s
  {
  }

  /** No two participants share a seat. */
  ghost predicate SeatsDistinct(players: map<Sid, Player>)
  {
    forall a, b :: a in players && b in players && a != b ==> players[a].seat != players[b].seat
  }

  /** A participant holds each seat 1..maxClients. */
  ghost predicate AllSeatsHeld(players: map<Sid, Player>, maxClients: int)
  {
    forall s :: 1 <= s <= maxClients ==> s in UsedSeats(players)
  }

  lemma {:induction false} UsedSeatsSize(players: map<Sid, Player>)
    ensures |UsedSeats(players)| <= |players|
    decreases |players|
  {
    if players != map[] {
      var k :| k in players;
      var rest := players - {k};
      UsedSeatsSize(rest);
      forall s | s in UsedSeats(players)
        ensures s in UsedSeats(rest) + {players[k].seat}
      {
        SeatHolder(players, s);
        var sid :| sid in players && players[sid].seat == s;
        if sid != k {
          assert sid in rest;
        }
      }
      Ranges.SubsetSize(UsedSeats(players), UsedSeats(rest) + {players[k].seat});
      assert |rest| == |players| - 1;
    }
  }

  /** No id occurs twice. */
  predicate Distinct(s: seq<Sid>)
  {
    s == [] || (s[0] !in s[1..] && Distinct(s[1..]))
  }

  /** `Distinct` by positions: no two positions hold the same id. */
  lemma {:induction false} DistinctIndices(s: seq<Sid>)
    requires Distinct(s)
    ensures forall i, j :: 0 <= i < j < |s| ==> s[i] != s[j]
    decreases |s|
  {
    if s != [] {
      DistinctIndices(s[1..]);
      forall i, j | 0 <= i < j < |s| ensures s[i] != s[j] {
        if i == 0 {
          assert s[j] == s[1..][j - 1];
        } else {
          assert s[i] == s[1..][i - 1] && s[j] == s[1..][j - 1];
        }
      }
    }
  }

  /** The converse of `DistinctIndices`. */
  lemma {:induction false} IndicesDistinct(s: seq<Sid>)
    requires forall i, j :: 0 <= i < j < |s| ==> s[i] != s[j]
    ensures Distinct(s)
    decreases |s|
  {
    if s != [] {
      forall k | 0 <= k < |s[1..]| ensures s[1..][k] != s[0] {
        assert s[1..][k] == s[k + 1];
      }
      forall i, j | 0 <= i < j < |s[1..]| ensures s[1..][i] != s[1..][j] {
        assert s[1..][i] == s[i + 1] && s[1..][j] == s[j + 1];
      }
      IndicesDistinct(s[1..]);
    }
  }

  /** The iteration order of the players map lists exactly its keys, each once. */
  ghost predicate OrderOf(order: seq<Sid>, players: map<Sid, Player>)
  {
    Distinct(order) && forall sid :: sid in players <==> sid in order
  }

  /** `order` with `x` taken out: the iteration order after `players.delete(x)`. */
  function Without(s: seq<Sid>, x: Sid): (r: seq<Sid>)
    ensures forall y :: y in r <==> y in s && y != x
    ensures Distinct(s) ==> Distinct(r)
    ensures x !in s ==> r == s
  {
    if s == [] then []
    else if s[0] == x then Without(s[1..], x)
    else
      assert ([s[0]] + Without(s[1..], x))[1..] == Without(s[1..], x);
      [s[0]] + Without(s[1..], x)
  }

  /** `order` after `players.set(x, …)`: a new key goes to the end, an existing one stays put. */
  function Upsert(s: seq<Sid>, x: Sid): (r: seq<Sid>)
  {
    if x in s then s else s + [x]
  }

  /** `delete` keeps the other keys in their order: the deleted id is spliced out. */
  lemma {:induction false} WithoutSplices(s: seq<Sid>, x: Sid, k: int)
    requires Distinct(s) && 0 <= k < |s| && s[k] == x
    ensures Without(s, x) == s[..k] + s[k + 1..]
    decreases k
  {
    if k == 0 {
      assert x !in s[1..];
      assert s[..0] + s[1..] == s[1..];
    } else {
      var tail := s[1..];
      assert tail[k - 1] == x;
      WithoutSplices(tail, x, k - 1);
      assert Without(s, x) == [s[0]] + Without(tail, x) by {
        assert s[0] != x by {
          assert x in tail;
        }
      }
      assert tail[..k - 1] == s[1..k] && tail[k..] == s[k + 1..];
      assert s[..k] == [s[0]] + s[1..k];
    }
  }

  lemma UpsertKeepsOrder(order: seq<Sid>, players: map<Sid, Player>, x: Sid, p: Player)
    requires OrderOf(order, players)
    ensures OrderOf(Upsert(order, x), players[x := p])
  {
    if x !in order {
      DistinctIndices(order);
      IndicesDistinct(order + [x]);
    }
  }

  lemma WithoutKeepsOrder(order: seq<Sid>, players: map<Sid, Player>, x: Sid)
    requires OrderOf(order, players)
    ensures OrderOf(Without(order, x), players - {x})
  {
  }

  /** The `mappa_iniziale` snapshot: every player's seat, in map order. */
  function Mapping(order: seq<Sid>, players: map<Sid, Player>): (m: seq<SeatOf>)
    requires forall sid :: sid in order ==> sid in players
    ensures |m| == |order|
    ensures forall i :: 0 <= i < |order| ==> m[i] == SeatOf(order[i], players[order[i]].seat)
  {
    if order == [] then [] else [SeatOf(order[0], players[order[0]].seat)] + Mapping(order[1..], players)
  }
}
