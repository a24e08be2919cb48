/** The race-session controller `DerbyRoom` (src/rooms/DerbyRoom.ts): each client message,
    each join or leave and each timer body is one method of `Room`. Time (`Date.now()`) and
    random draws are parameters; the number of connected clients, owned by the transport, is a
    parameter where the room reads it. */
module DerbyRoom {
  import opened Wrappers
  import opened Text
  import opened Track
  import opened Scoring
  import opened Roster
  import opened Seats
  import opened Leaderboard
  import opened Events

  /** At most one position update per client every 50 ms (`POS_MIN_INTERVAL_MS`). */
  const POS_MIN_INTERVAL_MS: int := 50

  datatype Phase = Waiting | Countdown | Running | Finished

  /** A `posizione` payload: each coordinate is present when it is a finite number. */
  datatype PositionMsg = PositionMsg(x: Option<real>, y: Option<real>, z: Option<real>)

  /** The account a session registered at join time, if any (`sid2pf.get`). */
  function AccountOf(accounts: map<Sid, string>, sid: Sid): Option<string>
  {
    if sid in accounts then Some(accounts[sid]) else None
  }

  /** `sid2pf` after a join: a non-empty `playfabId` option is recorded for the session. */
  function RecordAccount(accounts: map<Sid, string>, sid: Sid, account: string): map<Sid, string>
  {
    if account != "" then accounts[sid := account] else accounts
  }

  /** The account `_fineGara` finds for a session is the one it gave when it joined, none
      when it gave none, and a join leaves every other session's account as it was. */
  lemma AccountRecordedAtJoin(accounts: map<Sid, string>, sid: Sid, account: string)
    requires sid !in accounts
    ensures account != "" ==> AccountOf(RecordAccount(accounts, sid, account), sid) == Some(account)
    ensures account == "" ==> AccountOf(RecordAccount(accounts, sid, account), sid) == None
    ensures forall other :: other != sid ==>
              AccountOf(RecordAccount(accounts, sid, account), other) == AccountOf(accounts, other)
  {
  }

  /** Timestamp of a session's last accepted position update, 0 when there is none
      (`lastPosTs.get(sid) || 0`). */
  function LastPositionTime(lastPosTs: map<Sid, int>, sid: Sid): int
  {
    if sid in lastPosTs then lastPosTs[sid] else 0
  }

  /** The seats the opponents take at launch: every seat 1..maxClients nobody holds. */
  function LaunchSeats(players: map<Sid, Player>, maxClients: int): seq<int>
  {
    FreeSeats(UsedSeats(players), maxClients)
  }

  /** `giocatore_mappato` for each spawned opponent. */
  function BotAnnouncements(free: seq<int>): seq<Event>
  {
    seq(|free|, k requires 0 <= k < |free| => SeatAssigned(Bot(free[k]), free[k]))
  }

  /** Everything `lanciaMatch` sends, given the players and map order before the opponents
      are added. */
  function LaunchEvents(order: seq<Sid>, players: map<Sid, Player>, maxClients: int, matchId: MatchId): seq<Event>
    requires forall sid :: sid in order ==> sid in players
  {
    var free := LaunchSeats(players, maxClients);
    BotSidsKeys(free);
    [RoomLocked] + BotAnnouncements(free)
      + [MatchStarted(matchId), SeatMapping(Mapping(order + BotSids(free), players + BotMap(free))),
         CountdownUpdate(0), RaceBegins]
  }

  /** What every participant satisfies: a seat in 1..maxClients (an opponent's seat is the one
      in its id), a score in 0..winScore and an x on the track. */
  ghost predicate SoundPlayer(sid: Sid, p: Player, maxClients: int, winScore: nat)
  {
    && 1 <= p.seat <= maxClients
    && 0 <= p.score <= winScore
    && MinX() <= p.x <= MaxX(winScore)
    && (sid.Bot? ==> p.seat == sid.seat)
  }

  /** The players map, listed by `order`, holds only sound participants. */
  ghost predicate WellFormed(order: seq<Sid>, players: map<Sid, Player>, maxClients: int, winScore: nat)
  {
    && OrderOf(order, players)
    && forall sid :: sid in players ==> SoundPlayer(sid, players[sid], maxClients, winScore)
  }

  /** The race has ended at most once, and only if it is over, and at most one winner has been
      rewarded. */
  ghost predicate AtMostOnce(events: seq<Event>, finished: bool)
  {
    Rewards(events) <= Endings(events) <= (if finished then 1 else 0)
  }

  /** Ending a race that had not ended yet leaves one ending and at most one reward in the
      log, none for an opponent. */
  lemma EndKeepsAtMostOnce(log: seq<Event>, board: seq<Entry>, matchId: MatchId, winner: Sid, seat: int,
                           account: Option<string>, economyConfigured: bool)
    requires AtMostOnce(log, false)
    ensures var all := log + EndOfRace(board, matchId, winner, seat, account, economyConfigured);
      && Endings(all) == 1 && Rewards(all) == (if winner.Bot? then 0 else 1)
      && AtMostOnce(all, true)
  {
    EndOfRaceTally(board, matchId, winner, seat, account, economyConfigured);
    TallyAppend(log, EndOfRace(board, matchId, winner, seat, account, economyConfigured));
  }

  /** `players.set(sid, p)` keeps the roster well formed. */
  lemma SetKeepsWellFormed(order: seq<Sid>, players: map<Sid, Player>, maxClients: int, winScore: nat,
                           sid: Sid, p: Player)
    requires WellFormed(order, players, maxClients, winScore)
    requires SoundPlayer(sid, p, maxClients, winScore)
    ensures WellFormed(Upsert(order, sid), players[sid := p], maxClients, winScore)
    ensures sid in players ==> Upsert(order, sid) == order
  {
    UpsertKeepsOrder(order, players, sid, p);
  }

  /** `players.delete(sid)` keeps the roster well formed. */
  lemma DeleteKeepsWellFormed(order: seq<Sid>, players: map<Sid, Player>, maxClients: int, winScore: nat,
                              sid: Sid)
    requires WellFormed(order, players, maxClients, winScore)
    ensures WellFormed(Without(order, sid), players - {sid}, maxClients, winScore)
  {
    WithoutKeepsOrder(order, players, sid);
  }

  /** Filling the free seats with opponents keeps the roster well formed. */
  lemma SpawnKeepsWellFormed(order: seq<Sid>, players: map<Sid, Player>, maxClients: int, winScore: nat)
    requires WellFormed(order, players, maxClients, winScore)
    ensures var free := LaunchSeats(players, maxClients);
      WellFormed(order + BotSids(free), players + BotMap(free), maxClients, winScore)
  {
    FreeSeatsCorrect(UsedSeats(players), maxClients);
    BotsAreNew(players, maxClients, winScore);
    SpawnKeepsOrder(order, players, LaunchSeats(players, maxClients));
    SpawnSound(players, maxClients, winScore);
  }

  /** The launch sequence neither ends the race nor rewards anyone. */
  lemma LaunchQuiet(order: seq<Sid>, players: map<Sid, Player>, maxClients: int, matchId: MatchId)
    requires forall sid :: sid in order ==> sid in players
    ensures Quiet(LaunchEvents(order, players, maxClients, matchId))
  {
    var more := BotAnnouncements(LaunchSeats(players, maxClients));
    assert Quiet(more) by {
      forall e | e in more ensures !e.RaceEnded? && !IsReward(e) {
        var k :| 0 <= k < |more| && more[k] == e;
      }
    }
  }

  /** Launching the match keeps the roster well formed and the opponents' ids in step with
      their seats, and sends neither a race end nor a reward. */
  lemma LaunchKeepsInvariant(order: seq<Sid>, players: map<Sid, Player>, bots: seq<BotInfo>,
                             events: seq<Event>, maxClients: int, winScore: nat, finished: bool,
                             matchId: MatchId)
    requires WellFormed(order, players, maxClients, winScore)
    requires forall b :: b in bots ==> b.sid == Bot(b.seat)
    requires AtMostOnce(events, finished)
    ensures var free := LaunchSeats(players, maxClients);
      && WellFormed(order + BotSids(free), players + BotMap(free), maxClients, winScore)
      && (forall b :: b in bots + BotInfos(free) ==> b.sid == Bot(b.seat))
      && AtMostOnce(events + LaunchEvents(order, players, maxClients, matchId), finished)
  {
    SpawnKeepsWellFormed(order, players, maxClients, winScore);
    BotInfosSound(LaunchSeats(players, maxClients));
    var launched := LaunchEvents(order, players, maxClients, matchId);
    LaunchQuiet(order, players, maxClients, matchId);
    QuietTally(launched);
    TallyAppend(events, launched);
  }

  /** After the opponents are added every seat 1..maxClients is held, and no two participants
      share a seat if none did before. */
  lemma SpawnFillsEverySeat(order: seq<Sid>, players: map<Sid, Player>, maxClients: int, winScore: nat)
    requires WellFormed(order, players, maxClients, winScore)
    ensures var all := players + BotMap(LaunchSeats(players, maxClients));
      && AllSeatsHeld(all, maxClients)
      && (SeatsDistinct(players) ==> SeatsDistinct(all))
  {
    BotsAreNew(players, maxClients, winScore);
    SpawnFillsSeats(players, maxClients);
    if SeatsDistinct(players) {
      SpawnKeepsSeatsDistinct(players, maxClients);
    }
  }

  /** A client joining a room with fewer players than seats, where no two players share a
      seat, takes a seat nobody holds, so no two players share a seat afterwards either. */
  lemma JoinKeepsSeatsDistinct(players: map<Sid, Player>, maxClients: int, sid: Sid, nickname: string)
    requires SeatsDistinct(players) && sid !in players && |players| < maxClients
    ensures var seat := SeatChoice(UsedSeats(players), maxClients);
      && seat !in UsedSeats(players)
      && SeatsDistinct(players[sid := NewPlayer(seat, nickname)])
  {
    JoinFindsFreeSeat(players, maxClients);
    var seat := SeatChoice(UsedSeats(players), maxClients);
    var all := players[sid := NewPlayer(seat, nickname)];
    forall a, b | a in all && b in all && a != b ensures all[a].seat != all[b].seat {
      if a == sid {
        assert all[b].seat in UsedSeats(players);
      } else if b == sid {
        assert all[a].seat in UsedSeats(players);
      }
    }
  }

  /** Every participant after the spawn is sound. */
  lemma SpawnSound(players: map<Sid, Player>, maxClients: int, winScore: nat)
    requires forall sid :: sid in players ==> SoundPlayer(sid, players[sid], maxClients, winScore)
    ensures var all := players + BotMap(LaunchSeats(players, maxClients));
      forall sid :: sid in all ==> SoundPlayer(sid, all[sid], maxClients, winScore)
  {
    BotMapCorrect(LaunchSeats(players, maxClients));
    FreeSeatsCorrect(UsedSeats(players), maxClients);
    var bots := BotMap(LaunchSeats(players, maxClients));
    XForScoreOnTrack(0, winScore);
    forall sid | sid in players + bots ensures SoundPlayer(sid, (players + bots)[sid], maxClients, winScore) {
      if sid in bots {
        assert (players + bots)[sid] == BotPlayer(sid.seat);
      } else {
        assert (players + bots)[sid] == players[sid];
      }
    }
  }

  /** An opponent already in the roster holds the seat its id names. */
  lemma BotSeatsUsed(players: map<Sid, Player>, maxClients: int, winScore: nat)
    requires forall sid :: sid in players ==> SoundPlayer(sid, players[sid], maxClients, winScore)
    ensures forall sid :: sid in players && sid.Bot? ==> sid.seat in UsedSeats(players)
  {
    forall sid | sid in players && sid.Bot? ensures sid.seat in UsedSeats(players) {
      assert SoundPlayer(sid, players[sid], maxClients, winScore);
    }
  }

  /** One iteration of the spawn loop on a free seat `i`: the new opponent is in neither the
      map nor the order yet, and adding it extends each spawned list by one. */
  lemma SpawnStep(players: map<Sid, Player>, order: seq<Sid>, i: int)
    requires forall sid :: sid in players <==> sid in order
    requires forall sid :: sid in players && sid.Bot? ==> sid.seat in UsedSeats(players)
    requires 1 <= i && i !in UsedSeats(players)
    ensures var done := FreeSeats(UsedSeats(players), i - 1);
      && FreeSeats(UsedSeats(players), i) == done + [i]
      && (players + BotMap(done))[Bot(i) := BotPlayer(i)] == players + BotMap(done + [i])
      && Upsert(order + BotSids(done), Bot(i)) == order + BotSids(done + [i])
      && BotInfos(done) + [BotInfo(Bot(i), i)] == BotInfos(done + [i])
      && BotAnnouncements(done) + [SeatAssigned(Bot(i), i)] == BotAnnouncements(done + [i])
  {
    var done := FreeSeats(UsedSeats(players), i - 1);
    assert forall x :: x in done ==> x < i by {
      FreeSeatsCorrect(UsedSeats(players), i - 1);
    }
    assert Bot(i) !in players;
    BotAddedLast(done, i);
    BotMapExtend(players, done, i);
    assert Bot(i) !in order + BotSids(done);
    assert (order + BotSids(done)) + [Bot(i)] == order + (BotSids(done) + [Bot(i)]);
  }

  lemma BotMapExtend(players: map<Sid, Player>, done: seq<int>, i: int)
    ensures (players + BotMap(done))[Bot(i) := BotPlayer(i)] == players + BotMap(done + [i])
  {
    assert (done + [i])[..|done|] == done;
    var m0, m1 := (players + BotMap(done))[Bot(i) := BotPlayer(i)], players + BotMap(done + [i]);
    assert m0.Keys == m1.Keys;
  }

  /** Spawning on a seat above all the seats spawned so far appends one new entry to each list. */
  lemma BotAddedLast(done: seq<int>, i: int)
    requires forall x :: x in done ==> x < i
    ensures Bot(i) !in BotSids(done)
    ensures BotSids(done + [i]) == BotSids(done) + [Bot(i)]
    ensures BotInfos(done + [i]) == BotInfos(done) + [BotInfo(Bot(i), i)]
    ensures BotAnnouncements(done + [i]) == BotAnnouncements(done) + [SeatAssigned(Bot(i), i)]
  {
    var more := done + [i];
    forall k | 0 <= k < |BotSids(done)| ensures BotSids(done)[k] != Bot(i) {
      assert done[k] in done;
    }
    assert BotSids(more) == BotSids(done) + [Bot(i)] by {
      forall k | 0 <= k < |more| ensures BotSids(more)[k] == (BotSids(done) + [Bot(i)])[k] { }
    }
    assert BotInfos(more) == BotInfos(done) + [BotInfo(Bot(i), i)] by {
      forall k | 0 <= k < |more| ensures BotInfos(more)[k] == (BotInfos(done) + [BotInfo(Bot(i), i)])[k] { }
    }
    assert BotAnnouncements(more) == BotAnnouncements(done) + [SeatAssigned(Bot(i), i)] by {
      forall k | 0 <= k < |more|
        ensures BotAnnouncements(more)[k] == (BotAnnouncements(done) + [SeatAssigned(Bot(i), i)])[k] { }
    }
  }

  /** Every spawned `bots` entry carries the id of its seat. */
  lemma BotInfosSound(free: seq<int>)
    ensures forall b :: b in BotInfos(free) ==> b.sid == Bot(b.seat)
  {
  }

  /** No opponent spawned on a free seat is already a participant. */
  lemma BotsAreNew(players: map<Sid, Player>, maxClients: int, winScore: nat)
    requires forall sid :: sid in players ==> SoundPlayer(sid, players[sid], maxClients, winScore)
    ensures forall sid :: sid in BotMap(LaunchSeats(players, maxClients)) ==> sid !in players
  {
    BotMapCorrect(LaunchSeats(players, maxClients));
    FreeSeatsCorrect(UsedSeats(players), maxClients);
    forall sid | sid in BotMap(LaunchSeats(players, maxClients)) ensures sid !in players {
      if sid in players {
        assert false;
      }
    }
  }

  /** The spawned opponents go to the end of the map order, after the participants already in it. */
  lemma SpawnKeepsOrder(order: seq<Sid>, players: map<Sid, Player>, free: seq<int>)
    requires OrderOf(order, players)
    requires forall i, j :: 0 <= i < j < |free| ==> free[i] < free[j]
    requires forall sid :: sid in BotMap(free) ==> sid !in players
    ensures OrderOf(order + BotSids(free), players + BotMap(free))
  {
    SpawnOrderDistinct(order, players, free);
    SpawnOrderKeys(order, players, free);
  }

  lemma SpawnOrderDistinct(order: seq<Sid>, players: map<Sid, Player>, free: seq<int>)
    requires OrderOf(order, players)
    requires forall i, j :: 0 <= i < j < |free| ==> free[i] < free[j]
    requires forall sid :: sid in BotMap(free) ==> sid !in players
    ensures Distinct(order + BotSids(free))
  {
    BotMapCorrect(free);
    var sids := BotSids(free);
    var all := order + sids;
    DistinctIndices(order);
    forall i, j | 0 <= i < j < |all| ensures all[i] != all[j] {
      if j >= |order| {
        assert all[j] == Bot(free[j - |order|]);
        if i >= |order| {
          assert free[i - |order|] < free[j - |order|];
        } else {
          assert all[i] == order[i] && order[i] in players;
          assert Bot(free[j - |order|]) in BotMap(free);
        }
      } else {
        assert all[i] == order[i] && all[j] == order[j];
      }
    }
    IndicesDistinct(all);
  }

  lemma SpawnOrderKeys(order: seq<Sid>, players: map<Sid, Player>, free: seq<int>)
    requires forall sid :: sid in players <==> sid in order
    ensures forall sid :: sid in players + BotMap(free) <==> sid in order + BotSids(free)
  {
    BotMapCorrect(free);
    var sids := BotSids(free);
    forall sid ensures sid in players + BotMap(free) <==> sid in order + sids {
      if sid in BotMap(free) {
        var k :| 0 <= k < |free| && free[k] == sid.seat;
        assert sids[k] == sid;
      }
    }
  }

  /** After the spawn every seat 1..maxClients is held. */
  lemma SpawnFillsSeats(players: map<Sid, Player>, maxClients: int)
    requires forall sid :: sid in BotMap(LaunchSeats(players, maxClients)) ==> sid !in players
    ensures AllSeatsHeld(players + BotMap(LaunchSeats(players, maxClients)), maxClients)
  {
    BotMapCorrect(LaunchSeats(players, maxClients));
    FreeSeatsCorrect(UsedSeats(players), maxClients);
    var used := UsedSeats(players);
    var all := players + BotMap(LaunchSeats(players, maxClients));
    forall s | 1 <= s <= maxClients ensures s in UsedSeats(all) {
      if s in used {
        SeatHolder(players, s);
        var holder :| holder in players && players[holder].seat == s;
        assert all[holder] == players[holder];
      } else {
        assert Bot(s) in all && all[Bot(s)].seat == s;
      }
    }
  }

  lemma SpawnKeepsSeatsDistinct(players: map<Sid, Player>, maxClients: int)
    requires SeatsDistinct(players)
    requires forall sid :: sid in BotMap(LaunchSeats(players, maxClients)) ==> sid !in players
    ensures SeatsDistinct(players + BotMap(LaunchSeats(players, maxClients)))
  {
    BotMapCorrect(LaunchSeats(players, maxClients));
    FreeSeatsCorrect(UsedSeats(players), maxClients);
    var used := UsedSeats(players);
    var bots := BotMap(LaunchSeats(players, maxClients));
    var all := players + bots;
    forall a, b | a in all && b in all && a != b ensures all[a].seat != all[b].seat {
      if a in bots && b !in bots {
        assert all[b].seat in used;
      } else if b in bots && a !in bots {
        assert all[a].seat in used;
      }
    }
  }

  /** The entries, bots and announcements spawned for the free seats `free`, added to the
      given ones. */
  ghost predicate SpawnedFor(players: map<Sid, Player>, order: seq<Sid>, bots: seq<BotInfo>, free: seq<int>,
                             ps: map<Sid, Player>, ord: seq<Sid>, bs: seq<BotInfo>, announced: seq<Event>)
  {
    && ps == players + BotMap(free)
    && ord == order + BotSids(free)
    && bs == bots + BotInfos(free)
    && announced == BotAnnouncements(free)
  }

  /** A round of the spawn loop on a seat nobody holds: the seat gets an opponent. */
  lemma FillStep(players: map<Sid, Player>, order: seq<Sid>, bots: seq<BotInfo>, i: int,
                 ps: map<Sid, Player>, ord: seq<Sid>, bs: seq<BotInfo>, announced: seq<Event>)
    requires forall sid :: sid in players <==> sid in order
    requires forall sid :: sid in players && sid.Bot? ==> sid.seat in UsedSeats(players)
    requires 1 <= i && i !in UsedSeats(players)
    requires SpawnedFor(players, order, bots, FreeSeats(UsedSeats(players), i - 1), ps, ord, bs, announced)
    ensures SpawnedFor(players, order, bots, FreeSeats(UsedSeats(players), i), ps[Bot(i) := BotPlayer(i)],
                       Upsert(ord, Bot(i)), bs + [BotInfo(Bot(i), i)], announced + [SeatAssigned(Bot(i), i)])
  {
    SpawnStep(players, order, i);
  }

  /** The loop of `_spawnBotsIfNeeded`: for each seat 1..maxClients that no player holds,
      in increasing order, an opponent is put in the map (at the end of its order), appended
      to the bot list and announced. */
  method FillFreeSeats(players: map<Sid, Player>, order: seq<Sid>, bots: seq<BotInfo>, maxClients: nat)
    returns (ps: map<Sid, Player>, ord: seq<Sid>, bs: seq<BotInfo>, announced: seq<Event>)
    requires forall sid :: sid in players <==> sid in order
    requires forall sid :: sid in players && sid.Bot? ==> sid.seat in UsedSeats(players)
    ensures var free := LaunchSeats(players, maxClients);
      && ps == players + BotMap(free)
      && ord == order + BotSids(free)
      && bs == bots + BotInfos(free)
      && announced == BotAnnouncements(free)
  {
    var used := UsedSeats(players);
    ps, ord, bs, announced := players, order, bots, [];
    var n := 0;
    while n < maxClients
      invariant n <= maxClients
      invariant SpawnedFor(players, order, bots, FreeSeats(used, n), ps, ord, bs, announced)
    {
      var i := n + 1;
      if i !in used {
        FillStep(players, order, bots, i, ps, ord, bs, announced);
        var sid := Bot(i);
        ps := ps[sid := BotPlayer(i)];
        ord := Upsert(ord, sid);
        bs := bs + [BotInfo(sid, i)];
        announced := announced + [SeatAssigned(sid, i)];
      } else {
        assert FreeSeats(used, i) == FreeSeats(used, n);
      }
      n := i;
    }
  }

  class Room {
    /** The seat count (`maxClients = 6`); set by the constructor. */
    const maxClients: nat
    const countdownSeconds: int := 10
    const minimoGiocatori: nat := 1
    const puntiVittoria: nat := 21

    /** The transport's room id, the first half of every match id. */
    const roomId: string
    /** Whether the economy service is configured (`PF_HOST && PF_SECRET`). */
    const economyConfigured: bool

    /** `state.players`, and the order in which the map lists its keys. */
    var players: map<Sid, Player>
    var order: seq<Sid>

    var countdownStarted: bool
    var matchLanciato: bool
    var matchTerminato: bool
    var tempoRimanente: int

    /** Whether the countdown interval, the auto-start timeout and the leaderboard ticker are
        held (`interval`, `autostartTimeout`, `leaderboardTimer` not null). */
    var countdownTimer: bool
    var autostartTimer: bool
    var leaderboardTimer: bool

    var bots: seq<BotInfo>
    var leaderboardDirty: bool
    var matchId: Option<MatchId>
    var awardedTokens: set<Token>
    /** `sid2pf`: the economy account each session registered. */
    var accounts: map<Sid, string>
    var lastPosTs: map<Sid, int>

    /** Everything the room has sent so far. */
    var events: seq<Event>

    /** The class invariant: a well-formed roster, timers only in the phases that run them,
        no reward token left over, and at most one ending and one reward. */
    ghost predicate Valid()
      reads this
    {
      && Consistent()
      // Every token is cleared again by the `_fineGara` call that inserted it.
      && awardedTokens == {}
      && AtMostOnce(events, matchTerminato)
    }

    /** Everything in `Valid` except the reward bookkeeping, which `_fineGara` breaks and mends
        within one call. */
    ghost predicate Consistent()
      reads this
    {
      && Settled()
      && (forall b :: b in bots ==> b.sid == Bot(b.seat))
      && (countdownTimer ==> countdownStarted && !matchLanciato && !matchTerminato)
      && (leaderboardTimer ==> matchLanciato && !matchTerminato)
    }

    /** The part of the invariant that does not mention timers. */
    ghost predicate Settled()
      reads this`players, this`order, this`countdownStarted, this`matchLanciato, this`accounts
    {
      && 1 <= maxClients
      && WellFormed(order, players, maxClients, puntiVittoria)
      && !(matchLanciato && countdownStarted)
      && (forall sid :: sid in accounts ==> accounts[sid] != "")
    }

    function Phase(): Phase
      reads this
    {
      if matchTerminato then Finished
      else if matchLanciato then Running
      else if countdownStarted then Countdown
      else Waiting
    }

    /** What `_clearAllTimers` leaves behind. */
    ghost predicate TimersCleared()
      reads this
    {
      !countdownTimer && !autostartTimer && !leaderboardTimer && bots == []
      && !leaderboardDirty && awardedTokens == {} && matchId == None
    }

    /** `onCreate` and the field initialisers: an empty room waiting for players. */
    constructor (roomId: string, economyConfigured: bool)
      ensures Valid() && Phase() == Waiting
      ensures maxClients == 6
      ensures this.roomId == roomId && this.economyConfigured == economyConfigured
      ensures players == map[] && order == [] && bots == [] && events == []
      ensures tempoRimanente == countdownSeconds
      ensures !countdownTimer && !autostartTimer && !leaderboardTimer && !leaderboardDirty
      ensures matchId == None && awardedTokens == {} && accounts == map[] && lastPosTs == map[]
    {
      this.roomId := roomId;
      maxClients := 6;
      this.economyConfigured := economyConfigured;
      players := map[];
      order := [];
      countdownStarted, matchLanciato, matchTerminato := false, false, false;
      tempoRimanente := 10;
      countdownTimer, autostartTimer, leaderboardTimer := false, false, false;
      bots := [];
      leaderboardDirty := false;
      matchId := None;
      awardedTokens := {};
      accounts := map[];
      lastPosTs := map[];
      events := [];
    }

    /** Appends events that neither end the race nor reward anyone. */
    method Emit(es: seq<Event>)
      requires Quiet(es)
      modifies this`events
      ensures events == old(events) + es
      ensures Endings(events) == Endings(old(events)) && Rewards(events) == Rewards(old(events))
    {
      TallyAppend(events, es);
      QuietTally(es);
      events := events + es;
    }

    /** `_clearAllTimers` (also the whole of `onDispose`): cancels the countdown, the auto-start
        timeout, every bot timer and the leaderboard ticker, and forgets the match id and the
        reward tokens. */
    method ClearAllTimers()
      requires Settled()
      modifies this`countdownTimer, this`autostartTimer, this`bots, this`leaderboardTimer,
               this`leaderboardDirty, this`awardedTokens, this`matchId
      ensures Consistent() && TimersCleared()
      ensures players == old(players) && order == old(order) && accounts == old(accounts)
      ensures events == old(events)
    {
      countdownTimer := false;
      autostartTimer := false;
      bots := [];
      leaderboardTimer := false;
      leaderboardDirty := false;
      awardedTokens := {};
      matchId := None;
    }

    /** `_fineGara`: the first call ends the race, sends the final leaderboard and the winner,
        rewards a human winner once, clears every timer and schedules the disconnect; every
        later call changes nothing. */
    method FineGara(winner: Sid, seat: int, now: int)
      requires Valid()
      modifies this`matchTerminato, this`events, this`countdownTimer, this`autostartTimer, this`bots, this`leaderboardTimer,
               this`leaderboardDirty, this`awardedTokens, this`matchId
      ensures Valid()
      ensures old(matchTerminato) ==> unchanged(this)
      ensures players == old(players) && order == old(order) && accounts == old(accounts)
      ensures !old(matchTerminato) ==>
        && matchTerminato && TimersCleared()
        && events == old(events) + EndOfRace(old(Board(order, players)),
                                             old(matchId).GetOr(MatchId(roomId, now)), winner, seat,
                                             AccountOf(old(accounts), winner), economyConfigured)
    {
      if matchTerminato {
        return;
      }
      var mid := matchId.GetOr(MatchId(roomId, now));
      var board := BuildLeaderboardPayload(order, players);
      var account := AccountOf(accounts, winner);
      var reward: seq<Event> := [];
      assert Settled();
      if winner.Client? {
        var token := Token(winner, mid);
        if token !in awardedTokens {
          awardedTokens := awardedTokens + {token};
          reward := RewardFor(winner, mid, account, economyConfigured);
        }
      }
      ClearAllTimers();
      // The sends of `_fineGara` in order; the timers it clears send nothing.
      var sent := [Standings(board), RaceEnded(mid, winner, seat)] + reward + [DisconnectScheduled];
      assert sent == EndOfRace(board, mid, winner, seat, account, economyConfigured);
      EndKeepsAtMostOnce(events, board, mid, winner, seat, account, economyConfigured);
      StoreEnded(events + sent);
    }

    /** Marks the race ended and stores its log. */
    method StoreEnded(es: seq<Event>)
      requires Consistent() && TimersCleared() && AtMostOnce(es, true)
      modifies this`matchTerminato, this`events
      ensures Valid() && TimersCleared()
      ensures matchTerminato && events == es
    {
      matchTerminato, events := true, es;
    }

    /** The `posizione` handler. Dropped when the race is over or when the sender's last
        accepted update is under 50 ms old; otherwise the time is recorded (even for a sender
        with no player or with no payload, where reading a coordinate throws) and the player's
        x, clamped to the track, y and z are replaced by the finite values of the message.
        Scores and seats never change. */
    method OnPosition(id: string, msg: Option<PositionMsg>, now: int)
      requires Valid()
      modifies this`lastPosTs, this`players, this`events, this`leaderboardDirty
      ensures Valid()
      ensures var sid := Client(id);
        if old(matchTerminato) || now - LastPositionTime(old(lastPosTs), sid) < POS_MIN_INTERVAL_MS then
          lastPosTs == old(lastPosTs) && players == old(players) && events == old(events)
          && leaderboardDirty == old(leaderboardDirty)
        else if sid !in old(players) || msg.None? then
          lastPosTs == old(lastPosTs)[sid := now] && players == old(players) && events == old(events)
          && leaderboardDirty == old(leaderboardDirty)
        else
          var p := old(players)[sid];
          var m := msg.value;
          var q := p.(x := ClampX(m.x.GetOr(p.x), puntiVittoria), y := m.y.GetOr(p.y), z := m.z.GetOr(p.z));
          lastPosTs == old(lastPosTs)[sid := now] && players == old(players)[sid := q]
          && events == old(events) + [PositionChanged(sid, p.seat, q.x, q.y, q.z, Some(sid))]
          && leaderboardDirty
      ensures players.Keys == old(players).Keys
      ensures forall s :: s in players ==>
                players[s].score == old(players)[s].score && players[s].seat == old(players)[s].seat
    {
      if matchTerminato {
        return;
      }
      var sid := Client(id);
      var last := LastPositionTime(lastPosTs, sid);
      if now - last < POS_MIN_INTERVAL_MS {
        return;
      }
      lastPosTs := lastPosTs[sid := now];
      if sid !in players {
        return;
      }
      if msg.None? {
        // Reading a coordinate of a missing payload throws; the transport only logs it.
        return;
      }
      var p := players[sid];
      var m := msg.value;
      var q := p.(x := ClampX(m.x.GetOr(p.x), puntiVittoria), y := m.y.GetOr(p.y), z := m.z.GetOr(p.z));
      SetKeepsWellFormed(order, players, maxClients, puntiVittoria, sid, q);
      StoreUpdate(sid, q, [PositionChanged(sid, q.seat, q.x, q.y, q.z, Some(sid))]);
    }

    /** The `aggiorna_punti` handler. Ignored when the race is over, when the sender has no
        player, or when the clamped target is not 1, 2 or 4 above the current score. Otherwise
        the score becomes the target, x is recomputed from it, and the race ends exactly when
        this update crosses the winning score. */
    method OnScore(id: string, v: Option<real>, now: int)
      requires Valid()
      modifies this`players, this`leaderboardDirty, this`matchTerminato, this`events, this`countdownTimer, this`autostartTimer, this`bots, this`leaderboardTimer,
               this`leaderboardDirty, this`awardedTokens, this`matchId
      ensures Valid()
      ensures var sid := Client(id);
        (old(matchTerminato) || sid !in old(players)
         || AcceptScore(v, old(players)[sid].score, puntiVittoria).None?) ==> unchanged(this)
      ensures var sid := Client(id);
        !old(matchTerminato) && sid in old(players)
        && AcceptScore(v, old(players)[sid].score, puntiVittoria).Some? ==>
          var p := old(players)[sid];
          var n := AcceptScore(v, p.score, puntiVittoria).value;
          var q := p.(score := n, x := XForScore(n));
          var win := p.score < puntiVittoria <= n;
          var updates := [ScoreChanged(sid, p.seat, n), PositionChanged(sid, p.seat, q.x, q.y, q.z, None)];
          && p.score < n <= puntiVittoria
          && players == old(players)[sid := q] && order == old(order)
          && matchTerminato == win
          && (!win ==> events == old(events) + updates && leaderboardDirty
                       && matchId == old(matchId) && bots == old(bots)
                       && countdownTimer == old(countdownTimer) && autostartTimer == old(autostartTimer)
                       && leaderboardTimer == old(leaderboardTimer))
          && (win ==> events == old(events) + updates
                         + EndOfRace(Board(order, players), old(matchId).GetOr(MatchId(roomId, now)),
                                     sid, p.seat, AccountOf(accounts, sid), economyConfigured)
                      && TimersCleared())
    {
      if matchTerminato {
        return;
      }
      var sid := Client(id);
      if sid !in players {
        return;
      }
      var p := players[sid];
      var accepted := AcceptScore(v, p.score, puntiVittoria);
      if accepted.None? {
        return;
      }
      var n := accepted.value;
      var prev := p.score;
      var q := p.(score := n, x := XForScore(n));
      XForScoreOnTrack(n, puntiVittoria);
      SetKeepsWellFormed(order, players, maxClients, puntiVittoria, sid, q);
      StoreUpdate(sid, q, [ScoreChanged(sid, q.seat, n), PositionChanged(sid, q.seat, q.x, q.y, q.z, None)]);
      if !matchTerminato && n >= puntiVittoria && prev < puntiVittoria {
        FineGara(sid, q.seat, now);
      }
    }

    /** Stores a player's new entry, sends the updates about it and marks the leaderboard
        dirty (`_markLeaderboardDirty`). */
    method StoreUpdate(sid: Sid, q: Player, updates: seq<Event>)
      requires Quiet(updates)
      modifies this`players, this`events, this`leaderboardDirty
      ensures players == old(players)[sid := q] && events == old(events) + updates && leaderboardDirty
      ensures Endings(events) == Endings(old(events)) && Rewards(events) == Rewards(old(events))
    {
      TallyAppend(events, updates);
      QuietTally(updates);
      players, events, leaderboardDirty := players[sid := q], events + updates, true;
    }

    /** The `set_nickname` handler: the sender's nickname becomes the text cut to 24 characters
        (none given: empty), at any phase. */
    method OnSetNickname(id: string, nick: Option<string>)
      requires Valid()
      modifies this`players, this`leaderboardDirty
      ensures Valid()
      ensures var sid := Client(id);
        if sid in old(players) then
          players == old(players)[sid := old(players)[sid].(nickname := Slice(nick.GetOr(""), 24))]
          && leaderboardDirty
        else
          players == old(players) && leaderboardDirty == old(leaderboardDirty)
    {
      var sid := Client(id);
      if sid !in players {
        return;
      }
      var q := players[sid].(nickname := Slice(nick.GetOr(""), 24));
      SetKeepsWellFormed(order, players, maxClients, puntiVittoria, sid, q);
      players := players[sid := q];
      leaderboardDirty := true;  // `_markLeaderboardDirty`
    }

    /** The `richiedi_snapshot` handler: the sender alone receives every player's seat. */
    method OnSnapshotRequest(id: string)
      requires Valid()
      modifies this`events
      ensures Valid()
      ensures events == old(events) + [SnapshotTo(Client(id), Mapping(order, players))]
    {
      Emit([SnapshotTo(Client(id), Mapping(order, players))]);
    }

    /** `_tryStartCountdown`, run by the `start_matchmaking` message, by a join and by the
        auto-start timeout: a no-op once the countdown has started, the match has launched or
        finished, or while fewer than `minimoGiocatori` clients are connected; otherwise the
        countdown starts from `countdownSeconds`. */
    method TryStartCountdown(clientCount: nat)
      requires Valid()
      modifies this`countdownStarted, this`tempoRimanente, this`events, this`countdownTimer
      ensures Valid()
      ensures old(countdownStarted || matchLanciato || matchTerminato) || clientCount < minimoGiocatori ==>
                countdownStarted == old(countdownStarted) && tempoRimanente == old(tempoRimanente)
                && events == old(events) && countdownTimer == old(countdownTimer)
      ensures !old(countdownStarted || matchLanciato || matchTerminato) && clientCount >= minimoGiocatori ==>
                countdownStarted && Phase() == Countdown && tempoRimanente == countdownSeconds
                && countdownTimer && events == old(events) + [CountdownUpdate(countdownSeconds)]
    {
      if countdownStarted || matchLanciato || matchTerminato {
        return;
      }
      if clientCount < minimoGiocatori {
        return;
      }
      countdownStarted := true;
      tempoRimanente := countdownSeconds;
      Emit([CountdownUpdate(tempoRimanente)]);
      countdownTimer := true;
    }

    /** Stores the state `lanciaMatch` leaves behind: the room locked and running under `mid`
        with the leaderboard ticker on and every other timer off, and the given roster and log. */
    method StoreLaunch(ps: map<Sid, Player>, ord: seq<Sid>, bs: seq<BotInfo>, es: seq<Event>, mid: MatchId)
      modifies this`matchLanciato, this`countdownStarted, this`countdownTimer, this`autostartTimer,
               this`events, this`players, this`order, this`bots, this`leaderboardDirty, this`matchId,
               this`leaderboardTimer
      ensures matchLanciato && !countdownStarted && !countdownTimer && !autostartTimer
      ensures players == ps && order == ord && bots == bs && events == es
      ensures leaderboardDirty && matchId == Some(mid) && leaderboardTimer
    {
      matchLanciato, countdownStarted, countdownTimer, autostartTimer := true, false, false, false;
      players, order, bots, events := ps, ord, bs, es;
      leaderboardDirty, matchId, leaderboardTimer := true, Some(mid), true;
    }

    /** The state `lanciaMatch` leaves behind when it starts the match from the roster
        `order0`/`players0`, the opponents `bots0` and the event log `events0`: the room is
        locked and running, every free seat holds a new opponent, the match has its id and
        the launch has been announced. */
    ghost predicate LaunchedFrom(order0: seq<Sid>, players0: map<Sid, Player>, bots0: seq<BotInfo>,
                                 events0: seq<Event>, now: int)
      reads this
      requires forall sid :: sid in order0 ==> sid in players0
    {
      var free := LaunchSeats(players0, maxClients);
      && matchLanciato && !countdownStarted && Phase() == Running
      && !countdownTimer && !autostartTimer && leaderboardTimer && leaderboardDirty
      && players == players0 + BotMap(free)
      && order == order0 + BotSids(free)
      && bots == bots0 + BotInfos(free)
      && matchId == Some(MatchId(roomId, now))
      && events == events0 + LaunchEvents(order0, players0, maxClients, MatchId(roomId, now))
    }

    /** `lanciaMatch`: the first call locks the room, fills the free seats with opponents,
        starts the match under a fresh id and the leaderboard ticker; every later call changes
        nothing. */
    method LanciaMatch(now: int)
      requires Valid()
      requires !matchTerminato
      modifies this`matchLanciato, this`countdownStarted, this`countdownTimer, this`autostartTimer,
               this`events, this`players, this`order, this`bots, this`leaderboardDirty, this`matchId,
               this`leaderboardTimer
      ensures Valid()
      ensures old(matchLanciato) ==> unchanged(this)
      ensures !old(matchLanciato) ==> LaunchedFrom(old(order), old(players), old(bots), old(events), now)
    {
      if matchLanciato {
        return;
      }
      BotSeatsUsed(players, maxClients, puntiVittoria);
      var ps, ord, bs, announced := FillFreeSeats(players, order, bots, maxClients);
      var mid := MatchId(roomId, now);
      var launched := LaunchEvents(order, players, maxClients, mid);
      LaunchKeepsInvariant(order, players, bots, events, maxClients, puntiVittoria, matchTerminato, mid);
      StoreLaunch(ps, ord, bs, events + launched, mid);
    }

    /** The body of the countdown interval: launches at once when every seat is taken;
        otherwise counts one second down, announces the count while it is not negative, and
        launches when it reaches 0. */
    method CountdownTick(now: int)
      requires Valid()
      requires countdownTimer
      modifies this`tempoRimanente, this`matchLanciato, this`countdownStarted, this`countdownTimer, this`autostartTimer,
               this`events, this`players, this`order, this`bots, this`leaderboardDirty, this`matchId,
               this`leaderboardTimer
      ensures Valid()
      ensures |old(players)| >= maxClients ==>
        && tempoRimanente == old(tempoRimanente)
        && LaunchedFrom(old(order), old(players), old(bots), old(events), now)
      ensures |old(players)| < maxClients ==>
        var t := old(tempoRimanente) - 1;
        var announced := if t >= 0 then [CountdownUpdate(t)] else [];
        && tempoRimanente == t
        && (t <= 0 ==> LaunchedFrom(old(order), old(players), old(bots), old(events) + announced, now))
        && (t > 0 ==> Phase() == Countdown && countdownTimer && events == old(events) + announced
                      && players == old(players) && order == old(order) && bots == old(bots)
                      && leaderboardDirty == old(leaderboardDirty) && matchId == old(matchId)
                      && autostartTimer == old(autostartTimer) && leaderboardTimer == old(leaderboardTimer))
    {
      if |players| >= maxClients {
        LanciaMatch(now);
        return;
      }
      tempoRimanente := tempoRimanente - 1;
      if tempoRimanente > 0 {
        Emit([CountdownUpdate(tempoRimanente)]);
        return;
      }
      if tempoRimanente == 0 {
        Emit([CountdownUpdate(0)]);
      }
      ghost var events0 := events;
      assert events0 == old(events) + (if tempoRimanente == 0 then [CountdownUpdate(0)] else []);
      LanciaMatch(now);
      assert LaunchedFrom(old(order), old(players), old(bots), events0, now);
    }

    /** The seating half of `onJoin`: the client gets the seat `_assignNumeroGiocatore` picks
        and a fresh player at the start line, its account is recorded (and its balance
        requested when the service is configured), and the seat map, the new seat and the
        client's own number are sent. */
    method SeatClient(sid: Sid, nickname: string, account: string) returns (seat: int)
      requires Valid() && sid.Client?
      modifies this`players, this`order, this`accounts, this`events
      ensures Valid()
      ensures seat == SeatChoice(UsedSeats(old(players)), maxClients)
      ensures players == old(players)[sid := NewPlayer(seat, nickname)]
      ensures order == Upsert(old(order), sid)
      ensures accounts == RecordAccount(old(accounts), sid, account)
      ensures var balance := if account != "" && economyConfigured then [BalanceRequested(sid, account)] else [];
        events == old(events) + (balance + [SeatMapping(Mapping(order, players)), SeatAssigned(sid, seat),
                                            SeatNumberTo(sid, seat)])
    {
      seat := LowestFreeSeat(UsedSeats(players), maxClients);
      XForScoreOnTrack(0, puntiVittoria);
      SetKeepsWellFormed(order, players, maxClients, puntiVittoria, sid, NewPlayer(seat, nickname));
      var ps := players[sid := NewPlayer(seat, nickname)];
      var ord := Upsert(order, sid);
      var balance := if account != "" && economyConfigured then [BalanceRequested(sid, account)] else [];
      var seated := [SeatMapping(Mapping(ord, ps)), SeatAssigned(sid, seat), SeatNumberTo(sid, seat)];
      assert Quiet(balance) && Quiet(seated);
      var sent := balance + seated;
      TallyAppend(events, sent);
      QuietTally(sent);
      StoreSeat(ps, ord, RecordAccount(accounts, sid, account), events + sent);
    }

    /** Stores the roster, accounts and log a seated client leaves behind. */
    method StoreSeat(ps: map<Sid, Player>, ord: seq<Sid>, acc: map<Sid, string>, es: seq<Event>)
      requires Valid()
      requires WellFormed(ord, ps, maxClients, puntiVittoria)
      requires (forall sid :: sid in acc ==> acc[sid] != "") && AtMostOnce(es, matchTerminato)
      modifies this`players, this`order, this`accounts, this`events
      ensures Valid()
      ensures players == ps && order == ord && accounts == acc && events == es
    {
      players, order, accounts, events := ps, ord, acc, es;
    }

    /** `onJoin`. A join after launch or after the end is refused. Otherwise the client is
        seated, and the countdown is joined (the client alone gets the seconds left), started,
        or, with too few clients, its auto-start timeout armed. */
    method OnJoin(id: string, nickname: string, account: string, clientCount: nat)
      requires Valid()
      modifies this`players, this`order, this`accounts, this`events, this`countdownStarted,
               this`tempoRimanente, this`countdownTimer, this`autostartTimer
      ensures Valid()
      ensures var sid := Client(id);
        old(matchTerminato || matchLanciato) ==>
          events == old(events) + [LateJoinRefused(sid)] && players == old(players) && order == old(order)
          && accounts == old(accounts) && countdownStarted == old(countdownStarted)
          && tempoRimanente == old(tempoRimanente)
          && countdownTimer == old(countdownTimer) && autostartTimer == old(autostartTimer)
      ensures var sid := Client(id);
        !old(matchTerminato || matchLanciato) ==>
          var seat := SeatChoice(UsedSeats(old(players)), maxClients);
          var balance := if account != "" && economyConfigured then [BalanceRequested(sid, account)] else [];
          var joined := old(events) + (balance + [SeatMapping(Mapping(order, players)), SeatAssigned(sid, seat),
                                                  SeatNumberTo(sid, seat)]);
          && players == old(players)[sid := NewPlayer(seat, nickname)]
          && order == Upsert(old(order), sid)
          && accounts == RecordAccount(old(accounts), sid, account)
          && (old(countdownStarted) ==>
                events == joined + [CountdownTo(sid, old(tempoRimanente))]
                && countdownStarted && tempoRimanente == old(tempoRimanente)
                && countdownTimer == old(countdownTimer) && autostartTimer == old(autostartTimer))
          && (!old(countdownStarted) && clientCount >= minimoGiocatori ==>
                events == joined + [CountdownUpdate(countdownSeconds)]
                && Phase() == Countdown && tempoRimanente == countdownSeconds && countdownTimer
                && autostartTimer == old(autostartTimer))
          && (!old(countdownStarted) && clientCount < minimoGiocatori ==>
                events == joined && autostartTimer
                && countdownStarted == old(countdownStarted) && tempoRimanente == old(tempoRimanente)
                && countdownTimer == old(countdownTimer))
    {
      var sid := Client(id);
      if matchTerminato || matchLanciato {
        Emit([LateJoinRefused(sid)]);
        return;
      }
      var seat := SeatClient(sid, nickname, account);
      if countdownStarted {
        Emit([CountdownTo(sid, tempoRimanente)]);
      } else if clientCount >= minimoGiocatori {
        TryStartCountdown(clientCount);
      } else if !autostartTimer {
        autostartTimer := true;
      }
    }

    /** Stores the bots, roster, accounts and throttle times left after a leave, and marks
        the leaderboard dirty (`_markLeaderboardDirty`). */
    method StoreLeave(bs: seq<BotInfo>, ps: map<Sid, Player>, ord: seq<Sid>, acc: map<Sid, string>, ts: map<Sid, int>)
      modifies this`bots, this`players, this`order, this`accounts, this`lastPosTs, this`leaderboardDirty
      ensures bots == bs && players == ps && order == ord && accounts == acc && lastPosTs == ts
      ensures leaderboardDirty
    {
      bots, players, order, accounts, lastPosTs, leaderboardDirty := bs, ps, ord, acc, ts, true;
    }

    /** `onLeave`: drops the session's bot entry (if any), player, account and throttle time,
        marks the leaderboard dirty, and when no client is left before the end of the race,
        clears every timer and disconnects the room. */
    method OnLeave(sid: Sid, clientCount: nat)
      requires Valid()
      modifies this`players, this`order, this`accounts, this`lastPosTs, this`events, this`countdownTimer, this`autostartTimer, this`bots, this`leaderboardTimer,
               this`leaderboardDirty, this`awardedTokens, this`matchId
      ensures Valid()
      ensures players == old(players) - {sid} && order == Without(old(order), sid)
      ensures accounts == old(accounts) - {sid} && lastPosTs == old(lastPosTs) - {sid}
      ensures clientCount == 0 && !old(matchTerminato) ==>
                TimersCleared() && events == old(events) + [Disconnect]
      ensures !(clientCount == 0 && !old(matchTerminato)) ==>
                bots == RemoveBot(old(bots), sid) && leaderboardDirty && events == old(events)
                && countdownTimer == old(countdownTimer) && autostartTimer == old(autostartTimer)
                && leaderboardTimer == old(leaderboardTimer) && matchId == old(matchId)
    {
      DeleteKeepsWellFormed(order, players, maxClients, puntiVittoria, sid);
      StoreLeave(RemoveBot(bots, sid), players - {sid}, Without(order, sid), accounts - {sid}, lastPosTs - {sid});
      if clientCount == 0 && !matchTerminato {
        ClearAllTimers();
        Emit([Disconnect]);
      }
    }

    /** The body of a bot's timer. Does nothing once the race is over or when the bot's player
        is gone; otherwise draw `r` selects a step of 1, 2 or 4, the score grows by it up to the
        winning score, x follows the score, and the race ends exactly when this tick crosses
        the winning score. */
    method BotTick(bot: BotInfo, r: int, now: int)
      requires Valid()
      modifies this`players, this`leaderboardDirty, this`matchTerminato, this`events, this`countdownTimer, this`autostartTimer, this`bots, this`leaderboardTimer,
               this`leaderboardDirty, this`awardedTokens, this`matchId
      ensures Valid()
      ensures old(matchTerminato) || bot.sid !in old(players) ==> unchanged(this)
      ensures !old(matchTerminato) && bot.sid in old(players) ==>
        var p := old(players)[bot.sid];
        var n := if p.score + StepForDraw(r) < puntiVittoria then p.score + StepForDraw(r) else puntiVittoria;
        var q := p.(score := n, x := XForScore(n));
        var win := p.score < puntiVittoria <= n;
        var updates := [ScoreChanged(bot.sid, bot.seat, n), PositionChanged(bot.sid, bot.seat, q.x, q.y, q.z, None)];
        && p.score <= n <= puntiVittoria
        && (p.score < puntiVittoria ==> p.score < n)
        && players == old(players)[bot.sid := q] && order == old(order)
        && matchTerminato == win
        && (!win ==> events == old(events) + updates && leaderboardDirty && matchId == old(matchId)
                     && bots == old(bots) && leaderboardTimer == old(leaderboardTimer)
                     && countdownTimer == old(countdownTimer) && autostartTimer == old(autostartTimer))
        && (win ==> events == old(events) + updates
                       + EndOfRace(Board(order, players), old(matchId).GetOr(MatchId(roomId, now)),
                                   bot.sid, bot.seat, AccountOf(accounts, bot.sid), economyConfigured)
                    && TimersCleared())
    {
      if matchTerminato {
        return;
      }
      if bot.sid !in players {
        return;
      }
      var p := players[bot.sid];
      var pick := WeightedPick(r);
      var prev := p.score;
      var n := if p.score + pick < puntiVittoria then p.score + pick else puntiVittoria;
      var q := p.(score := n, x := XForScore(n));
      XForScoreOnTrack(n, puntiVittoria);
      SetKeepsWellFormed(order, players, maxClients, puntiVittoria, bot.sid, q);
      StoreUpdate(bot.sid, q, [ScoreChanged(bot.sid, bot.seat, n), PositionChanged(bot.sid, bot.seat, q.x, q.y, q.z, None)]);
      if !matchTerminato && n >= puntiVittoria && prev < puntiVittoria {
        FineGara(bot.sid, bot.seat, now);
      }
    }

    /** The body of the leaderboard ticker: while the race runs, a dirty leaderboard is
        broadcast and marked clean. */
    method LeaderboardTick()
      requires Valid()
      modifies this`leaderboardDirty, this`events
      ensures Valid()
      ensures !matchLanciato || matchTerminato || !old(leaderboardDirty) ==>
                events == old(events) && leaderboardDirty == old(leaderboardDirty)
      ensures matchLanciato && !matchTerminato && old(leaderboardDirty) ==>
                !leaderboardDirty && events == old(events) + [Standings(Board(order, players))]
    {
      if !matchLanciato || matchTerminato {
        return;
      }
      if leaderboardDirty {
        var board := BuildLeaderboardPayload(order, players);
        SendStandings(board);
      }
    }

    /** Clears the dirty flag and sends the standings `board`. */
    method SendStandings(board: seq<Entry>)
      requires Valid()
      modifies this`leaderboardDirty, this`events
      ensures Valid()
      ensures !leaderboardDirty && events == old(events) + [Standings(board)]
    {
      leaderboardDirty := false;
      Emit([Standings(board)]);
    }
  }

  /** `bots.findIndex` by session id, then `splice` of that one entry. */
  function RemoveBot(bots: seq<BotInfo>, sid: Sid): (r: seq<BotInfo>)
    ensures forall b :: b in r ==> b in bots
    ensures forall b :: b in bots && b.sid != sid ==> b in r
    ensures (forall b :: b in bots ==> b.sid != sid) ==> r == bots
  {
    if bots == [] then []
    else if bots[0].sid == sid then bots[1..]
    else [bots[0]] + RemoveBot(bots[1..], sid)
  }

  /** The first `bots` entry of the session, and only that one, is spliced out. */
  lemma {:induction false} RemoveBotSplices(bots: seq<BotInfo>, sid: Sid, k: int)
    requires 0 <= k < |bots| && bots[k].sid == sid
    requires forall j :: 0 <= j < k ==> bots[j].sid != sid
    ensures RemoveBot(bots, sid) == bots[..k] + bots[k + 1..]
    decreases k
  {
    if k > 0 {
      RemoveBotSplices(bots[1..], sid, k - 1);
      assert bots[1..][..k - 1] == bots[1..k];
      assert bots[1..][k..] == bots[k + 1..];
      assert bots[..k] == [bots[0]] + bots[1..k];
    }
  }
}
