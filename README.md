# DerbyRoom: a verified model of the race room

`DerbyRoom` is the Colyseus room that runs one horse race of up to six participants. Clients
join and get the lowest free seat (`numero_giocatore`). After a ten-second countdown the room
locks, and every empty seat gets a simulated opponent ("bot"). The race then runs until a
participant reaches `puntiVittoria = 21` points.

Clients report positions (`posizione`) and scores (`aggiorna_punti`). The room accepts those
reports only under its soft-authoritative rules. A score may only grow by 1, 2 or 4, and x is
recomputed from the score. A position is throttled to one every 50 ms, and its x is clamped to
the track. Bots advance by a weighted random step. While the race runs, a leaderboard ticker
broadcasts the standings whenever they changed. The first participant to cross the winning
score ends the race. A human winner is rewarded once: through the economy service when the
winner registered an account and the service is configured, and with a local `coins_awarded`
message otherwise.

The model is one Dafny class, `DerbyRoom.Room`. It has the room's own fields:
- `players` and its listing order `order`;
- the flags `countdownStarted`, `matchLanciato` and `matchTerminato`, and the counter
  `tempoRimanente`;
- `bots`, `leaderboardDirty`, `matchId` and `awardedTokens`;
- `accounts` (the `sid2pf` map) and `lastPosTs`;
- one flag per timer handle;
- an `events` log of everything the room broadcasts, sends or asks the economy service for.

Each message handler, join and leave, and each timer body is one method. Every handler, join,
leave and timer body keeps the class invariant `Valid()`, and its `ensures` states the complete
new state in terms of the old one. The small setter methods they call (`Emit`, `StoreUpdate`,
`StoreLaunch`, `StoreLeave`, `ClearAllTimers`) state only the fields they write. The invariant says:
- the roster is well formed: each participant has a seat in 1..maxClients, a score in 0..21
  and an x on the track;
- timers are held only in the phases that run them;
- the event log contains at most one race end and at most one reward.

Modelling choices:
- A session id is `Sid = Client(id) | Bot(seat)`, an abstraction of the string ids and the
  `BOT_<roomId>_<seat>` naming. The source tells a bot by the `BOT_` prefix, so a human
  session id that happened to start with `BOT_` would be taken for a bot; the model assumes
  the transport's ids never do.
- `order: seq<Sid>` records the insertion order in which the players map lists its keys, which
  makes the snapshots and the leaderboard deterministic.
- The current time (`Date.now()`), the random draw of a bot tick and the number of connected
  clients (`this.clients.length`) are method parameters.
- A client value that may be missing or not a finite number is an `Option<real>`, and a
  `posizione` payload that is itself missing is an `Option<PositionMsg>`. The integer
  conversion `v | 0` is written out exactly: truncation toward zero, then a 32-bit
  wrap-around.

Modules:
- `Wrappers`: `Option`.
- `Ranges`: integer ranges and their sizes.
- `Text`: nickname slicing and number formatting.
- `Track`: the x axis.
- `Scoring`: score validation and the weighted bot step.
- `Roster`: participants, seats and map order.
- `Seats`: seat allocation and the bot spawn.
- `Leaderboard`: the payload and its stable sort.
- `Events`: the event log and its tallies.
- `DerbyRoom`: the `Room` class and the lemmas about its transitions.

## Model

| member | source | states |
|---|---|---|
| Text.Slice | src/rooms/DerbyRoom.ts:157 | `slice(0, n)` is the prefix of the input of length n, or the whole input when it is no longer than n (lengths in Unicode scalar values, see Left out) |
| Text.NatText | src/rooms/DerbyRoom.ts:335 | the decimal text of a natural number is non-empty, made of digits only, and has no leading zero |
| Text.NatTextRoundTrip | src/rooms/DerbyRoom.ts:335 | reading the decimal text of a natural number back gives the number |
| Text.IntText | src/rooms/DerbyRoom.ts:422 | `${n}`; specified by `Text.IntTextRoundTrip` |
| Text.IntTextRoundTrip | src/rooms/DerbyRoom.ts:422 | the text of any integer reads back as that integer, and starts with a minus sign exactly when it is negative |
| Track.ClampX | src/rooms/DerbyRoom.ts:96-99 | the clamped x always lies in [start-1, start+0.2*21+1]; a value inside the band is kept; a value outside it goes to the nearer bound |
| Track.XForScore | src/rooms/DerbyRoom.ts:130 | the authoritative x of a score; specified by `Track.XForScoreOnTrack` and `Track.XForScoreMonotonic` |
| Track.XForScoreOnTrack | src/rooms/DerbyRoom.ts:21-22 | the authoritative x of every score in 0..21 lies inside the band a client may report; score 0 is the start line |
| Track.XForScoreMonotonic | src/rooms/DerbyRoom.ts:130 | a higher score is never placed behind a lower one |
| Scoring.TruncateTowardZero | src/rooms/DerbyRoom.ts:119 | the integer part is the truncation toward zero, within one unit of the input and on the zero side of it |
| Scoring.ToInt32 | src/rooms/DerbyRoom.ts:119 | the bitwise-or with 0 yields a value in the signed 32-bit range and congruent to its input modulo 2^32 |
| Scoring.SafeInt | src/rooms/DerbyRoom.ts:119 | `safeInt`; specified by `Scoring.IntegerInputReadLiterally`, `Scoring.WrappedInputAccepted` and `Scoring.NonFiniteScoreIgnored` |
| Scoring.ScoreTarget | src/rooms/DerbyRoom.ts:119-120 | the target always lies in 0..21; a negative request gives 0, one over 21 gives 21, and one in range is kept |
| Scoring.AcceptScore | src/rooms/DerbyRoom.ts:121-124 | an update is accepted if and only if the clamped target is 1, 2 or 4 above the current score; an accepted score is strictly higher and at most 21 |
| Scoring.NonFiniteScoreIgnored | src/rooms/DerbyRoom.ts:119-124 | a non-finite message falls back to the current score, so its delta is 0 and it is rejected |
| Scoring.IntegerInputReadLiterally | src/rooms/DerbyRoom.ts:119 | a whole number within 32 bits is read as itself |
| Scoring.WrappedInputAccepted | src/rooms/DerbyRoom.ts:119-124 | 2^32+5 wraps to 5, so a client at 3 points that sends it is moved to 5 |
| Scoring.StepForDraw | src/rooms/DerbyRoom.ts:362-364 | every draw selects one of the allowed steps 1, 2 or 4 |
| Scoring.WeightedPick | src/rooms/DerbyRoom.ts:362-364 | the bucket loop selects 1 for draws 0..84, 2 for draws 85..98 and 4 for draw 99 |
| Scoring.DrawsSelecting | src/rooms/DerbyRoom.ts:362-364 | a step whose draws form one interval is selected by exactly that many draws |
| Scoring.DrawFrequencies | src/rooms/DerbyRoom.ts:348-349 | the weights sum to 100; of the 100 equally likely draws, 85 select +1, 14 select +2 and 1 selects +4 |
| Roster.NewPlayer | src/rooms/DerbyRoom.ts:252-260 | a joining player starts at the start line with 0 points on its seat, with the given nickname cut to 24 characters |
| Roster.BotPlayer | src/rooms/DerbyRoom.ts:333-336 | a bot starts at the start line (x, y and z all 0) with 0 points on its seat, named `BOT <seat>` |
| Roster.UsedSeats | src/rooms/DerbyRoom.ts:321-322 | every participant's seat is in the used set |
| Roster.UsedSeatsSize | src/rooms/DerbyRoom.ts:324 | no more seats are in use than there are participants (`used.size` is at most the map size) |
| Roster.DistinctIndices | src/rooms/DerbyRoom.ts:37 | a map's listing holds no key twice: no two positions hold the same id |
| Roster.IndicesDistinct | src/rooms/DerbyRoom.ts:37 | the converse: a listing whose positions all hold different ids is duplicate-free |
| Roster.Without | src/rooms/DerbyRoom.ts:302 | `delete` lists every other key and drops the deleted one; it keeps the listing duplicate-free and leaves it unchanged when the key is absent |
| Roster.WithoutSplices | src/rooms/DerbyRoom.ts:302 | `delete` splices the key out of the listing and keeps every other key in its relative order |
| Roster.Upsert | src/rooms/DerbyRoom.ts:261 | the listing order after `set`; specified by `Roster.UpsertKeepsOrder` and `DerbyRoom.SetKeepsWellFormed` |
| Roster.UpsertKeepsOrder | src/rooms/DerbyRoom.ts:261 | after `set`, the listing still names every key of the map exactly once |
| Roster.WithoutKeepsOrder | src/rooms/DerbyRoom.ts:302 | after `delete`, the listing still names every key of the map exactly once |
| Roster.Mapping | src/rooms/DerbyRoom.ts:163-166 | the `mappa_iniziale` snapshot has one entry per player, in map order, each with that player's seat |
| Seats.LowestFreeSeat | src/rooms/DerbyRoom.ts:320-325 | when a seat is free, the result is the smallest free seat in 1..maxClients; when none is, it is min(used+1, maxClients); with maxClients >= 1 it is always in 1..maxClients |
| Seats.SeatChoice | src/rooms/DerbyRoom.ts:320-325 | the seat `_assignNumeroGiocatore` picks; `Seats.LowestFreeSeat` is proved to return it |
| Seats.FreeSeatWhenRoom | src/rooms/DerbyRoom.ts:323-324 | fewer used seats than maxClients leaves a seat free, so the fallback is not reached |
| Seats.JoinFindsFreeSeat | src/rooms/DerbyRoom.ts:320-323 | with fewer players than seats, a joining player finds a seat nobody holds |
| Seats.LowestFreeExists | src/rooms/DerbyRoom.ts:323 | if some seat is free, a lowest free seat exists |
| Seats.ReleasedSeatIsFree | src/rooms/DerbyRoom.ts:302 | once a leaving player's entry is deleted, its seat is free again, and every other seat stays as it was |
| Seats.FreeSeatsCorrect | src/rooms/DerbyRoom.ts:328-331 | the spawn visits exactly the unused seats 1..maxClients, in increasing order |
| Seats.FreeSeats | src/rooms/DerbyRoom.ts:328-331 | the seats the spawn fills; specified by `Seats.FreeSeatsCorrect` |
| Seats.BotMap | src/rooms/DerbyRoom.ts:332-338 | the bots the spawn adds; specified by `Seats.BotMapCorrect` |
| Seats.BotMapCorrect | src/rooms/DerbyRoom.ts:332-338 | one bot is added per free seat, keyed by that seat's id, as a fresh bot player |
| Seats.BotSidsKeys | src/rooms/DerbyRoom.ts:338 | the ids appended to the map order are exactly the new bots |
| Seats.BotSids | src/rooms/DerbyRoom.ts:338 | the bots' ids in insertion order; specified by `Seats.BotSidsKeys` and `DerbyRoom.SpawnOrderDistinct` |
| Seats.BotInfos | src/rooms/DerbyRoom.ts:339 | the pushed `bots` entries; specified by `DerbyRoom.BotInfosSound` |
| Leaderboard.EntryOf | src/rooms/DerbyRoom.ts:419-425 | a row copies the player's id, seat, score and x; an empty nickname is shown as `Player <seat>`; a shown name is never empty |
| Leaderboard.Entries | src/rooms/DerbyRoom.ts:417-426 | the unsorted list has one row per player, in map order |
| Leaderboard.Above | src/rooms/DerbyRoom.ts:429 | the comparator: higher score first, then higher x |
| Leaderboard.Insert | src/rooms/DerbyRoom.ts:429 | one insertion step of the sort; specified by `Leaderboard.InsertPermutes`, `Leaderboard.InsertRanked` and `Leaderboard.InsertKeepsTies` |
| Leaderboard.SortByRank | src/rooms/DerbyRoom.ts:429 | the stable sort; specified by `Leaderboard.SortByRankCorrect` and `Leaderboard.SortByRankStable` |
| Leaderboard.Board | src/rooms/DerbyRoom.ts:417-430 | the payload; specified by `Leaderboard.BoardCorrect`, `Leaderboard.BoardRows` and `Leaderboard.BoardStable` |
| Leaderboard.InsertPermutes | src/rooms/DerbyRoom.ts:429 | inserting a row adds exactly that row |
| Leaderboard.InsertRanked | src/rooms/DerbyRoom.ts:429 | inserting a row into a ranked list leaves it ranked |
| Leaderboard.SortByRankCorrect | src/rooms/DerbyRoom.ts:429 | the sort returns a permutation of its input, ordered by score descending and then by x descending |
| Leaderboard.BoardCorrect | src/rooms/DerbyRoom.ts:417-430 | the payload is a permutation of the players' rows, one per player, by score descending and, for equal scores, by x descending |
| Leaderboard.BoardRows | src/rooms/DerbyRoom.ts:417-430 | every row of the payload is some player's own row, and every player has a row |
| Leaderboard.InsertKeepsTies | src/rooms/DerbyRoom.ts:429 | an inserted row goes before every row that ties with it on score and x |
| Leaderboard.SortByRankStable | src/rooms/DerbyRoom.ts:429 | the sort is stable: rows that tie on both score and x keep their relative order |
| Leaderboard.BoardStable | src/rooms/DerbyRoom.ts:417-430 | players that tie on both score and x appear on the leaderboard in map order |
| Leaderboard.DistinctSize | src/rooms/DerbyRoom.ts:418 | the `forEach` visits as many players as the map holds |
| Leaderboard.EntriesAppend | src/rooms/DerbyRoom.ts:418-426 | listing one more player adds its row at the end |
| Leaderboard.EntriesStep | src/rooms/DerbyRoom.ts:418-426 | one more `forEach` step adds that player's row at the end |
| Leaderboard.BuildLeaderboardPayload | src/rooms/DerbyRoom.ts:410-431 | the loop and the sort produce the payload: one row per player, ranked, each a player's own row |
| Events.TallyAppend | src/rooms/DerbyRoom.ts:446 | the counts of race ends and rewards add up over consecutive parts of the log |
| Events.QuietTally | src/rooms/DerbyRoom.ts:104-108 | messages other than race ends and rewards add no race end and no reward |
| Events.RewardFor | src/rooms/DerbyRoom.ts:449-480 | a bot winner gets no reward; a human winner gets exactly one; with an account and a configured service, that reward is the 20-coin credit request; without an account, or with the service unconfigured, it is the `coins_awarded` message with delta 20 |
| Events.EndOfRace | src/rooms/DerbyRoom.ts:443-485 | everything `_fineGara` sends; specified by `Events.EndOfRaceTally` and `DerbyRoom.EndKeepsAtMostOnce` |
| Events.EndOfRaceTally | src/rooms/DerbyRoom.ts:443-485 | the end of a race announces exactly one winner and issues one reward for a human winner and none for a bot |
| DerbyRoom.AccountOf | src/rooms/DerbyRoom.ts:454 | `sid2pf.get`; specified by `DerbyRoom.AccountRecordedAtJoin` |
| DerbyRoom.RecordAccount | src/rooms/DerbyRoom.ts:263-265 | `sid2pf` after a join; specified by `DerbyRoom.AccountRecordedAtJoin` |
| DerbyRoom.AccountRecordedAtJoin | src/rooms/DerbyRoom.ts:263-265 | a new session's account is the non-empty `playfabId` it joined with and none when it gave none; every other session's account stays as it was |
| DerbyRoom.LastPositionTime | src/rooms/DerbyRoom.ts:84 | the last accepted position time, 0 when none; its use is specified by `DerbyRoom.Room.OnPosition` |
| DerbyRoom.LaunchEvents | src/rooms/DerbyRoom.ts:217-231 | everything `lanciaMatch` sends; specified by `DerbyRoom.LaunchQuiet` and `DerbyRoom.Room.LanciaMatch` |
| DerbyRoom.BotAnnouncements | src/rooms/DerbyRoom.ts:340 | one `giocatore_mappato` per spawned bot; specified by `DerbyRoom.BotAddedLast` and `DerbyRoom.FillFreeSeats` |
| DerbyRoom.EndKeepsAtMostOnce | src/rooms/DerbyRoom.ts:436-485 | ending a race that had not ended leaves exactly one race end and at most one reward in the whole log |
| DerbyRoom.SetKeepsWellFormed | src/rooms/DerbyRoom.ts:127-130 | replacing or adding a sound participant keeps the roster well formed, and an existing key keeps its place in the order |
| DerbyRoom.DeleteKeepsWellFormed | src/rooms/DerbyRoom.ts:302 | deleting a participant keeps the roster well formed |
| DerbyRoom.SpawnKeepsWellFormed | src/rooms/DerbyRoom.ts:327-343 | adding the bots keeps the roster well formed |
| DerbyRoom.LaunchQuiet | src/rooms/DerbyRoom.ts:217-231 | the launch messages neither end the race nor reward anyone |
| DerbyRoom.LaunchKeepsInvariant | src/rooms/DerbyRoom.ts:209-238 | launching keeps the roster well formed, keeps each bot entry's id matched to its seat, and keeps at most one race end and one reward |
| DerbyRoom.SpawnFillsEverySeat | src/rooms/DerbyRoom.ts:327-343 | after the spawn every seat 1..maxClients is held, and no two participants share a seat unless two did already |
| DerbyRoom.JoinKeepsSeatsDistinct | src/rooms/DerbyRoom.ts:251-261 | a client joining a room with fewer players than seats takes a seat nobody holds, so seats stay unshared |
| DerbyRoom.SpawnSound | src/rooms/DerbyRoom.ts:333-336 | every participant after the spawn has a legal seat, score and x |
| DerbyRoom.BotSeatsUsed | src/rooms/DerbyRoom.ts:332-334 | a bot already in the roster holds the seat its id names |
| DerbyRoom.SpawnStep | src/rooms/DerbyRoom.ts:330-340 | one round of the spawn loop on a free seat extends the map, the order, the bot list and the announcements by that seat's bot |
| DerbyRoom.BotMapExtend | src/rooms/DerbyRoom.ts:338 | `set` of one more bot extends the bot map by that bot |
| DerbyRoom.BotAddedLast | src/rooms/DerbyRoom.ts:338-340 | a bot on a seat above every earlier one is new, and it is appended to the order, the bot list and the announcements |
| DerbyRoom.BotInfosSound | src/rooms/DerbyRoom.ts:339 | every pushed bot entry carries its seat's id |
| DerbyRoom.BotsAreNew | src/rooms/DerbyRoom.ts:331-332 | no bot spawned on a free seat is already a participant |
| DerbyRoom.SpawnKeepsOrder | src/rooms/DerbyRoom.ts:338 | the new bots go to the end of the map order, which still lists every key once |
| DerbyRoom.SpawnOrderDistinct | src/rooms/DerbyRoom.ts:338 | appending the bots' ids keeps the order duplicate-free |
| DerbyRoom.SpawnOrderKeys | src/rooms/DerbyRoom.ts:338 | the extended order lists exactly the keys of the extended map |
| DerbyRoom.SpawnFillsSeats | src/rooms/DerbyRoom.ts:330-338 | after the spawn every seat 1..maxClients is held by someone |
| DerbyRoom.SpawnKeepsSeatsDistinct | src/rooms/DerbyRoom.ts:330-338 | bots take only free seats, so seats stay unshared |
| DerbyRoom.FillStep | src/rooms/DerbyRoom.ts:330-340 | a loop round on an unused seat gives that seat its bot |
| DerbyRoom.FillFreeSeats | src/rooms/DerbyRoom.ts:327-343 | the spawn loop adds one bot per free seat to the map (at the end of its order) and to the bot list, and announces each |
| DerbyRoom.RemoveBot | src/rooms/DerbyRoom.ts:295-300 | `findIndex` plus `splice` keeps every other entry, adds none, and changes nothing when no entry matches |
| DerbyRoom.RemoveBotSplices | src/rooms/DerbyRoom.ts:295-300 | exactly the first entry of the session is removed |
| DerbyRoom.Room.constructor | src/rooms/DerbyRoom.ts:43-72 | a new room waits for players with an empty roster, no timers and no events, and satisfies the invariant |
| DerbyRoom.Room.Emit | src/rooms/DerbyRoom.ts:104-108 | a broadcast that neither ends the race nor rewards anyone is appended to the log and leaves the tallies unchanged |
| DerbyRoom.Room.ClearAllTimers | src/rooms/DerbyRoom.ts:488-499 | every timer is released, the bot list is emptied, the leaderboard is clean, and the tokens and the match id are forgotten; the roster and the log are untouched |
| DerbyRoom.Room.FineGara | src/rooms/DerbyRoom.ts:436-486 | the first call ends the race and sends the final board, the winner, at most one reward (none for a bot) and the scheduled disconnect, and clears the timers; every later call changes nothing |
| DerbyRoom.Room.StoreEnded | src/rooms/DerbyRoom.ts:438 | marking the race ended with a log of at most one end and reward restores the invariant |
| DerbyRoom.Room.OnPosition | src/rooms/DerbyRoom.ts:79-111 | the update is dropped after the end or within 50 ms of the last one; otherwise the time is recorded even for an unknown sender or a missing payload (which throws and changes nothing else), and a player's x is clamped to the track while a non-finite coordinate keeps its old value; scores and seats never change |
| DerbyRoom.Room.OnScore | src/rooms/DerbyRoom.ts:114-151 | nothing changes after the end, for an unknown sender or for a rejected delta; an accepted score rises by 1, 2 or 4 with x recomputed; the race ends exactly when this update crosses 21 |
| DerbyRoom.Room.StoreUpdate | src/rooms/DerbyRoom.ts:126-146 | the new entry is stored, its updates are broadcast and the leaderboard is marked dirty, with no race end or reward added |
| DerbyRoom.Room.OnSetNickname | src/rooms/DerbyRoom.ts:154-159 | a known sender's nickname becomes the text cut to 24 characters (empty when none is given); an unknown sender changes nothing |
| DerbyRoom.Room.OnSnapshotRequest | src/rooms/DerbyRoom.ts:162-169 | the sender alone receives every player's seat, in map order |
| DerbyRoom.Room.TryStartCountdown | src/rooms/DerbyRoom.ts:181-191 | a no-op once started, launched or finished, or with too few clients; otherwise the countdown starts from 10 and is announced |
| DerbyRoom.Room.StoreLaunch | src/rooms/DerbyRoom.ts:209-238 | stores the launched state: locked and running, the ticker on, the other timers off |
| DerbyRoom.Room.LanciaMatch | src/rooms/DerbyRoom.ts:209-238 | the first call fills every free seat with a bot, starts the match under a fresh id and announces it; every later call changes nothing |
| DerbyRoom.Room.CountdownTick | src/rooms/DerbyRoom.ts:192-206 | a full room launches at once; otherwise the count drops by one, is announced while it is not negative, and the match launches when it reaches 0 or below |
| DerbyRoom.Room.SeatClient | src/rooms/DerbyRoom.ts:251-280 | the client gets the seat the allocation picks and a fresh player, its account is recorded, and the seat map, the new seat and the client's number are sent |
| DerbyRoom.Room.StoreSeat | src/rooms/DerbyRoom.ts:261-265 | storing a well-formed roster and a log with at most one end and reward keeps the invariant |
| DerbyRoom.Room.OnJoin | src/rooms/DerbyRoom.ts:243-291 | a join after launch or end is refused and changes nothing else; otherwise the client is seated and then joins, starts or arms the countdown |
| DerbyRoom.Room.StoreLeave | src/rooms/DerbyRoom.ts:295-306 | stores the state left after a leave and marks the leaderboard dirty |
| DerbyRoom.Room.OnLeave | src/rooms/DerbyRoom.ts:293-313 | the session's player, account, throttle time and bot entry go away; when the last client leaves before the end, every timer is cleared and the room disconnects |
| DerbyRoom.Room.BotTick | src/rooms/DerbyRoom.ts:357-381 | nothing changes after the end or for a removed bot; otherwise the score grows by the drawn step, never past 21, x follows, and the race ends exactly when this tick crosses 21 |
| DerbyRoom.Room.LeaderboardTick | src/rooms/DerbyRoom.ts:396-403 | while the race runs, a dirty leaderboard is broadcast and marked clean; otherwise nothing changes |
| DerbyRoom.Room.SendStandings | src/rooms/DerbyRoom.ts:398-401 | the flag is cleared and the standings are broadcast, keeping the invariant |

## Left out

- Timers and scheduling. `setInterval`, `setTimeout`, the jittered bot delays and the 800 ms,
  1500 ms and 2000 ms delays are not modelled. Each timer handle is a boolean field. Each timer
  body is a method (`CountdownTick`, `BotTick`, `LeaderboardTick`, and `TryStartCountdown` for
  the auto-start timeout) that a caller invokes.
- `_runBots` is not modelled beyond its tick body: it only schedules one timer per bot. The
  delayed disconnect of `_fineGara` is the `DisconnectScheduled` event.
- `_startLeaderboardTicker` is the `leaderboardTimer` flag set at launch, with the interval
  body modelled as `LeaderboardTick`.
- `_markLeaderboardDirty` is inlined as `leaderboardDirty := true`, and `onDispose` is a call
  of `ClearAllTimers`.
- Economy service (PlayFab) calls are not modelled. `_pfGetBalances` and `_pfAddCurrency` become
  the events `BalanceRequested` and `CreditRequested`. Their HTTP traffic, their replies, the
  `wallet_sync` messages and the `.then`/`.catch` continuations are foreign asynchronous code.
- FineGara: the local `coins_awarded` message is logged unconditionally. The source sends it
  only when the winner is still among the connected clients, which belongs to the transport.
- Transport and I/O: `broadcast`, `send`, `lock`, `disconnect`, `client.leave` and console
  logging are recorded as events or left out. The Colyseus schema encoding is not modelled.
- Numbers are real and integer values, not IEEE-754 doubles. `Number.isFinite` is the choice
  between `Some` and `None`: a score or a coordinate that is not a finite number is `None`.
  A `posizione` payload that is null or undefined is `None`; the handler then records the
  time and stops, which is what the source's exception at the first coordinate read
  amounts to (the transport only logs it). A `set_nickname` value that is not a string is
  taken as its string form.
- Text.Slice: counts Unicode scalar values, while JavaScript's `slice` counts UTF-16 code
  units. A nickname with characters outside the Basic Multilingual Plane (an emoji, say) is
  cut at 24 scalar values, so it can hold more than 24 code units. The source can also
  leave a lone surrogate at the cut, which the model cannot represent.
- Roster.NewPlayer: its nickname cap of 24 is in Unicode scalar values, not UTF-16 code
  units, for the reason given for `Text.Slice`.
- DerbyRoom.Room.OnSetNickname: the 24-character cut is in Unicode scalar values, not UTF-16
  code units, for the reason given for `Text.Slice`.
- The `tempo` field of `gara_finita` is always null in the source. It is not part of the
  `RaceEnded` event.
- Room.Valid does not say that no two participants share a seat. That holds only while joins
  stay within `maxClients`, which the transport enforces. `JoinKeepsSeatsDistinct` and
  `SpawnFillsEverySeat` state it under that condition.
- Several handlers store their new state through small setter methods (`StoreUpdate`,
  `StoreSeat`, `StoreLaunch`, `StoreLeave`, `StoreEnded`, `SendStandings`). Within one call,
  the order of the assignments differs from the source. For example, `_fineGara` sets
  `matchTerminato` first, and the model sets it last. The observable state and the order of
  the messages are the same.
- Score updates are accepted in every phase before the end of the race, including before
  launch, because the handler checks only `matchTerminato`. A join does not mark the
  leaderboard dirty. The model follows the code on both points.
- `src/index.ts` (HTTP bootstrap and health check) is not part of this model.
