/** The leaderboard payload (`_buildLeaderboardPayload`, src/rooms/DerbyRoom.ts:410-431):
    one entry per player, in map order, then sorted by score descending and, among equal
    scores, by x descending. Array.prototype.sort is stable, so entries that tie on both keys
    keep map order; the insertion sort below is stable in the same way. */
module Leaderboard {
  import opened Text
  import opened Roster

  /** One row of `classifica_update`. */
  datatype Entry = Entry(sid: Sid, seat: int, nickname: string, score: int, x: real)

  /** A player's row; an empty nickname shows as `Player <seat>`. */
  function EntryOf(sid: Sid, p: Player): (e: Entry)
    ensures e.sid == sid && e.seat == p.seat && e.score == p.score && e.x == p.x
    ensures p.nickname != "" ==> e.nickname == p.nickname
    ensures p.nickname == "" ==> e.nickname == "Player " + IntText(p.seat)
    ensures e.nickname != ""
  {
    Entry(sid, p.seat, if p.nickname != "" then p.nickname else "Player " + IntText(p.seat), p.score, p.x)
  }

  /** The list built by the `forEach` over the players map, before sorting. */
  function Entries(order: seq<Sid>, players: map<Sid, Player>): (r: seq<Entry>)
    requires forall sid :: sid in order ==> sid in players
    ensures |r| == |order|
    ensures forall i :: 0 <= i < |order| ==> r[i] == EntryOf(order[i], players[order[i]])
  {
    if order == [] then [] else [EntryOf(order[0], players[order[0]])] + Entries(order[1..], players)
  }

  /** `a` sorts strictly before `b` under the comparator
      `a.punti === b.punti ? b.x - a.x : b.punti - a.punti`. */
  predicate Above(a: Entry, b: Entry)
  {
    a.score > b.score || (a.score == b.score && a.x > b.x)
  }

  /** Ranked order: no entry sorts strictly before an entry that precedes it. */
  predicate Ranked(t: seq<Entry>)
  {
    forall i, j :: 0 <= i < j < |t| ==> !Above(t[j], t[i])
  }

  /** Insert `e` before the first entry that does not sort strictly before it. */
  function Insert(e: Entry, t: seq<Entry>): seq<Entry>
  {
    if t == [] || !Above(t[0], e) then [e] + t else [t[0]] + Insert(e, t[1..])
  }

  /** Stable insertion sort by rank. */
  function SortByRank(s: seq<Entry>): seq<Entry>
  {
    if s == [] then [] else Insert(s[0], SortByRank(s[1..]))
  }

  /** The leaderboard payload of the current players. */
  function Board(order: seq<Sid>, players: map<Sid, Player>): seq<Entry>
    requires forall sid :: sid in order ==> sid in players
  {
    SortByRank(Entries(order, players))
  }

  lemma {:induction false} InsertPermutes(e: Entry, t: seq<Entry>)
    ensures multiset(Insert(e, t)) == multiset(t) + multiset{e}
  {
    if t != [] && Above(t[0], e) {
      InsertPermutes(e, t[1..]);
      assert t == [t[0]] + t[1..];
    }
  }

  lemma {:induction false} InsertRanked(e: Entry, t: seq<Entry>)
    requires Ranked(t)
    ensures Ranked(Insert(e, t))
  {
    if t == [] {
    } else if !Above(t[0], e) {
      var r := [e] + t;
      forall i, j | 0 <= i < j < |r| ensures !Above(r[j], r[i]) {
        if i == 0 && j > 1 {
          assert !Above(t[j - 1], t[0]);
        }
      }
    } else {
      var tail := t[1..];
      assert Ranked(tail) by {
        forall i, j | 0 <= i < j < |tail| ensures !Above(tail[j], tail[i]) {
          assert tail[i] == t[i + 1] && tail[j] == t[j + 1];
        }
      }
      InsertRanked(e, tail);
      InsertPermutes(e, tail);
      var rest := Insert(e, tail);
      var r := [t[0]] + rest;
      forall i, j | 0 <= i < j < |r| ensures !Above(r[j], r[i]) {
        if i == 0 {
          assert r[j] == rest[j - 1];
          assert r[j] in multiset(rest);
          if r[j] != e {
            assert r[j] in multiset(tail);
            var k :| 0 <= k < |tail| && tail[k] == r[j];
            assert t[k + 1] == r[j];
          }
        } else {
          assert r[i] == rest[i - 1] && r[j] == rest[j - 1];
        }
      }
    }
  }

  lemma {:induction false} SortByRankCorrect(s: seq<Entry>)
    ensures Ranked(SortByRank(s))
    ensures multiset(SortByRank(s)) == multiset(s)
  {
    if s != [] {
      SortByRankCorrect(s[1..]);
      InsertRanked(s[0], SortByRank(s[1..]));
      InsertPermutes(s[0], SortByRank(s[1..]));
      assert s == [s[0]] + s[1..];
    }
  }

  /** The leaderboard lists every player exactly once (a permutation of the per-player rows)
      and orders them by score descending, then x descending. */
  lemma BoardCorrect(order: seq<Sid>, players: map<Sid, Player>)
    requires OrderOf(order, players)
    ensures multiset(Board(order, players)) == multiset(Entries(order, players))
    ensures |Board(order, players)| == |players|
    ensures Ranked(Board(order, players))
    ensures forall i, j :: 0 <= i < j < |Board(order, players)| ==>
              Board(order, players)[i].score > Board(order, players)[j].score ||
              (Board(order, players)[i].score == Board(order, players)[j].score &&
               Board(order, players)[i].x >= Board(order, players)[j].x)
  {
    var entries := Entries(order, players);
    var b := Board(order, players);
    SortByRankCorrect(entries);
    assert |b| == |entries| by {
      assert |multiset(b)| == |multiset(entries)|;
    }
    DistinctSize(order, players);
  }

  /** Every leaderboard row is some player's own row (seat, score, x and display name), and
      every player has a row. */
  lemma BoardRows(order: seq<Sid>, players: map<Sid, Player>)
    requires OrderOf(order, players)
    ensures forall e :: e in Board(order, players) ==> e.sid in players && e == EntryOf(e.sid, players[e.sid])
    ensures forall sid :: sid in players ==> EntryOf(sid, players[sid]) in Board(order, players)
  {
    var entries := Entries(order, players);
    var b := Board(order, players);
    SortByRankCorrect(entries);
    forall e | e in b ensures e.sid in players && e == EntryOf(e.sid, players[e.sid]) {
      assert e in multiset(entries);
      var k :| 0 <= k < |entries| && entries[k] == e;
    }
    forall sid | sid in players ensures EntryOf(sid, players[sid]) in b {
      var k :| 0 <= k < |order| && order[k] == sid;
      assert entries[k] in multiset(entries);
    }
  }

  /** The rows of `t` that tie on score `score` and on x `x`, in their order in `t`. */
  function Ties(t: seq<Entry>, score: int, x: real): seq<Entry>
  {
    if t == [] then []
    else (if t[0].score == score && t[0].x == x then [t[0]] else []) + Ties(t[1..], score, x)
  }

  /** An inserted row goes before every row it ties with. */
  lemma {:induction false} InsertKeepsTies(e: Entry, t: seq<Entry>, score: int, x: real)
    ensures Ties(Insert(e, t), score, x) == Ties([e], score, x) + Ties(t, score, x)
  {
    assert Ties([e], score, x) == (if e.score == score && e.x == x then [e] else []) + Ties([], score, x);
    if t == [] || !Above(t[0], e) {
      assert ([e] + t)[1..] == t;
    } else {
      InsertKeepsTies(e, t[1..], score, x);
      assert ([t[0]] + Insert(e, t[1..]))[1..] == Insert(e, t[1..]);
    }
  }

  /** The sort is stable: rows that tie on both score and x keep their relative order. */
  lemma {:induction false} SortByRankStable(s: seq<Entry>, score: int, x: real)
    ensures Ties(SortByRank(s), score, x) == Ties(s, score, x)
  {
    if s != [] {
      SortByRankStable(s[1..], score, x);
      InsertKeepsTies(s[0], SortByRank(s[1..]), score, x);
      assert Ties([s[0]], score, x) == (if s[0].score == score && s[0].x == x then [s[0]] else []) + Ties([], score, x);
    }
  }

  /** Players that tie on both score and x appear on the leaderboard in map order. */
  lemma BoardStable(order: seq<Sid>, players: map<Sid, Player>, score: int, x: real)
    requires forall sid :: sid in order ==> sid in players
    ensures Ties(Board(order, players), score, x) == Ties(Entries(order, players), score, x)
  {
    SortByRankStable(Entries(order, players), score, x);
  }

  /** A duplicate-free order listing the keys of the map has as many ids as the map. */
  lemma {:induction false} DistinctSize(order: seq<Sid>, players: map<Sid, Player>)
    requires OrderOf(order, players)
    ensures |order| == |players|
    decreases |order|
  {
    if order != [] {
      var first := order[0];
      var rest := players - {first};
      forall sid ensures sid in rest <==> sid in order[1..] {
        if sid in order && sid != first {
          var k :| 0 <= k < |order| && order[k] == sid;
          assert order[1..][k - 1] == sid;
        }
      }
      DistinctSize(order[1..], rest);
    } else {
      assert players.Keys == {};
    }
  }

  /** Adding an id at the end of the order adds its row at the end of the rows. */
  lemma EntriesAppend(order: seq<Sid>, sid: Sid, players: map<Sid, Player>)
    requires forall s :: s in order ==> s in players
    requires sid in players
    ensures Entries(order + [sid], players) == Entries(order, players) + [EntryOf(sid, players[sid])]
  {
  }

  /** One more id of the order gives one more row, at the end. */
  lemma EntriesStep(order: seq<Sid>, i: int, players: map<Sid, Player>)
    requires forall s :: s in order ==> s in players
    requires 0 <= i < |order|
    ensures Entries(order[..i + 1], players) == Entries(order[..i], players) + [EntryOf(order[i], players[order[i]])]
  {
    assert order[..i + 1] == order[..i] + [order[i]];
    EntriesAppend(order[..i], order[i], players);
  }

  /** `_buildLeaderboardPayload`: the `forEach` over the players in map order, then the sort. */
  method BuildLeaderboardPayload(order: seq<Sid>, players: map<Sid, Player>) returns (board: seq<Entry>)
    requires OrderOf(order, players)
    ensures board == Board(order, players)
    ensures |board| == |players| && Ranked(board)
    ensures forall e :: e in board ==> e.sid in players && e == EntryOf(e.sid, players[e.sid])
    ensures forall sid :: sid in players ==> EntryOf(sid, players[sid]) in board
  {
    var list: seq<Entry> := [];
    var i := 0;
    while i < |order|
      invariant 0 <= i <= |order|
      invariant list == Entries(order[..i], players)
    {
      EntriesStep(order, i, players);
      list := list + [EntryOf(order[i], players[order[i]])];
      i := i + 1;
    }
    assert order[..|order|] == order;
    board := SortByRank(list);
    assert |board| == |players| && Ranked(board) by {
      BoardCorrect(order, players);
    }
    BoardRows(order, players);
  }
}
