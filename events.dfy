/** What the room sends: broadcasts and direct sends, in the order they are issued, and the
    calls it makes to the economy service. */
module Events {
  import opened Wrappers
  import opened Roster
  import opened Leaderboard

  /** Coins credited to a human winner (`delta = 20`). */
  const REWARD_AMOUNT: int := 20

  datatype Event =
    | CountdownUpdate(seconds: int)                           // broadcast countdown_update
    | CountdownTo(to: Sid, seconds: int)                      // send countdown_update
    | SeatMapping(mapping: seq<SeatOf>)                       // broadcast mappa_iniziale
    | SnapshotTo(to: Sid, mapping: seq<SeatOf>)               // send mappa_iniziale
    | SeatAssigned(sid: Sid, seat: int)                       // broadcast giocatore_mappato
    | SeatNumberTo(to: Sid, seat: int)                        // send numero_giocatore
    | MatchStarted(matchId: MatchId)                          // broadcast match_started
    | RaceBegins                                              // broadcast inizia_match
    | PositionChanged(sid: Sid, seat: int, x: real, y: real, z: real, except: Option<Sid>) // pos_update
    | ScoreChanged(sid: Sid, seat: int, score: int)           // broadcast punteggio_aggiornato
    | Standings(board: seq<Entry>)                            // broadcast classifica_update
    | RaceEnded(matchId: MatchId, winner: Sid, seat: int)     // broadcast gara_finita
    | LateJoinRefused(to: Sid)                                // send match_in_corso, then leave
    | BalanceRequested(sid: Sid, account: string)             // economy: GetUserInventory
    | CreditRequested(sid: Sid, account: string, matchId: MatchId, amount: int) // economy: AddUserVirtualCurrency
    | CoinsAwarded(to: Sid, matchId: MatchId, amount: int)    // send coins_awarded (no account, or service not configured)
    | RoomLocked                                              // lock()
    | Disconnect                                              // disconnect() now
    | DisconnectScheduled                                     // disconnect() after 1500 ms

  predicate IsReward(e: Event)
  {
    e.CreditRequested? || e.CoinsAwarded?
  }

  /** Number of `gara_finita` broadcasts. */
  function Endings(es: seq<Event>): nat
  {
    if es == [] then 0 else (if es[0].RaceEnded? then 1 else 0) + Endings(es[1..])
  }

  /** Number of rewards issued (a credit call, or the local notification). */
  function Rewards(es: seq<Event>): nat
  {
    if es == [] then 0 else (if IsReward(es[0]) then 1 else 0) + Rewards(es[1..])
  }

  lemma {:induction false} TallyAppend(a: seq<Event>, b: seq<Event>)
    ensures Endings(a + b) == Endings(a) + Endings(b)
    ensures Rewards(a + b) == Rewards(a) + Rewards(b)
    decreases |a|
  {
    if a != [] {
      assert (a + b)[1..] == a[1..] + b;
      TallyAppend(a[1..], b);
    } else {
      assert a + b == b;
    }
  }

  /** Events that neither end the race nor issue a reward. */
  predicate Quiet(es: seq<Event>)
  {
    forall e :: e in es ==> !e.RaceEnded? && !IsReward(e)
  }

  lemma {:induction false} QuietTally(es: seq<Event>)
    requires Quiet(es)
    ensures Endings(es) == 0 && Rewards(es) == 0
    decreases |es|
  {
    if es != [] {
      assert es[0] in es;
      assert Quiet(es[1..]) by {
        forall e | e in es[1..] ensures !e.RaceEnded? && !IsReward(e) {
          var k :| 0 <= k < |es[1..]| && es[1..][k] == e;
          assert es[k + 1] == e;
        }
      }
      QuietTally(es[1..]);
    }
  }

  /** The reward path of `_fineGara`: nothing for a simulated opponent; for a human, a credit
      call when the winner registered an account and the service is configured, the local
      `coins_awarded` notification otherwise. */
  function RewardFor(winner: Sid, matchId: MatchId, account: Option<string>, economyConfigured: bool): (r: seq<Event>)
    ensures winner.Bot? ==> r == []
    ensures winner.Client? ==> |r| == 1 && IsReward(r[0])
    ensures winner.Client? && account.Some? && economyConfigured ==>
              r == [CreditRequested(winner, account.value, matchId, REWARD_AMOUNT)]
    ensures winner.Client? && !(account.Some? && economyConfigured) ==>
              r == [CoinsAwarded(winner, matchId, REWARD_AMOUNT)]
  {
    if winner.Bot? then []
    else if account.Some? && economyConfigured then [CreditRequested(winner, account.value, matchId, REWARD_AMOUNT)]
    else [CoinsAwarded(winner, matchId, REWARD_AMOUNT)]
  }

  /** Everything `_fineGara` sends, in order: the final leaderboard, the end of the race, the
      reward (if any), and the delayed disconnect. */
  function EndOfRace(board: seq<Entry>, matchId: MatchId, winner: Sid, seat: int,
                     account: Option<string>, economyConfigured: bool): seq<Event>
  {
    [Standings(board), RaceEnded(matchId, winner, seat)]
      + RewardFor(winner, matchId, account, economyConfigured) + [DisconnectScheduled]
  }

  /** The end of a race announces one winner and issues at most one reward, none for a bot. */
  lemma EndOfRaceTally(board: seq<Entry>, matchId: MatchId, winner: Sid, seat: int,
                       account: Option<string>, economyConfigured: bool)
    ensures Endings(EndOfRace(board, matchId, winner, seat, account, economyConfigured)) == 1
    ensures Rewards(EndOfRace(board, matchId, winner, seat, account, economyConfigured)) ==
              if winner.Bot? then 0 else 1
  {
    var reward := RewardFor(winner, matchId, account, economyConfigured);
    TallyAppend([Standings(board), RaceEnded(matchId, winner, seat)], reward);
    TallyAppend([Standings(board), RaceEnded(matchId, winner, seat)] + reward, [DisconnectScheduled]);
    TallyAppend([Standings(board)], [RaceEnded(matchId, winner, seat)]);
    if winner.Client? {
      assert reward == [reward[0]];
      TallyAppend([], reward);
    }
  }
}
