/**
 * A player's profile of server/src/models/Player.js: win, tie and loss
 * counters, round totals, a derived win rate and the most recent match
 * summaries, newest first and at most `HistoryCap` of them.
 *
 * `Player` objects are updated in place; `PlayerData` is their value, and
 * each method of `Player` is proved to move it as a function below does.
 */
module Profile {
  import opened Wrappers
  import opened Match

  /** How many match summaries a profile keeps. */
  const HistoryCap: nat := 20

  /** The `stats` record. */
  datatype Stats = Stats(
    gamesPlayed: nat,
    wins: nat,
    losses: nat,
    ties: nat,
    totalRoundsWon: nat,
    totalRoundsLost: nat,
    winRate: nat)

  /** The value of a `Player` object; times are milliseconds. */
  datatype PlayerData = PlayerData(
    id: PlayerId,
    name: string,
    avatar: string,
    stats: Stats,
    gameHistory: seq<GameSummary>,
    createdAt: int,
    lastActive: int)

  /** What `getProfile` returns. */
  datatype ProfileView = ProfileView(id: PlayerId, name: string, avatar: string, stats: Stats, createdAt: int, lastActive: int)

  function Min(a: int, b: int): int { if a < b then a else b }

  function Max(a: int, b: int): int { if a < b then b else a }

  /** The state the constructor builds. */
  function Newcomer(id: PlayerId, name: string, avatar: string, now: int): PlayerData {
    PlayerData(id, name, avatar, Stats(0, 0, 0, 0, 0, 0, 0), [], now, now)
  }

  /**
   * What the counters of every profile satisfy: each match played was won,
   * tied or lost; the history holds the latest matches up to the cap; the
   * win rate is the one derived from the counters.
   */
  ghost predicate Tallied(p: PlayerData) {
    && p.stats.gamesPlayed == p.stats.wins + p.stats.ties + p.stats.losses
    && |p.gameHistory| == Min(p.stats.gamesPlayed, HistoryCap)
    && p.stats.winRate == WinRate(p.stats.wins, p.stats.losses)
  }

  /** The history after `unshift` of `s` and truncation to the cap. */
  function Recorded(h: seq<GameSummary>, s: GameSummary): (r: seq<GameSummary>)
    ensures |r| == Min(|h| + 1, HistoryCap)
    ensures r[0] == s
    ensures forall i | 1 <= i < |r| :: r[i] == h[i - 1]
  {
    var pushed := [s] + h;
    if |pushed| > HistoryCap then pushed[..HistoryCap] else pushed
  }

  /**
   * The win rate: the percentage of decisive matches won, rounded to the
   * nearest integer with halves rounded up (as `Math.round` does), or 0 when
   * no match was decisive.
   */
  function WinRate(wins: nat, losses: nat): (rate: nat)
    ensures rate <= 100
    ensures wins + losses == 0 ==> rate == 0
    ensures wins + losses > 0 ==>
              (2 * rate - 1) * (wins + losses) <= 200 * wins < (2 * rate + 1) * (wins + losses)
  {
    var decisive := wins + losses;
    if decisive > 0 then
      var rate := (200 * wins + decisive) / (2 * decisive);
      RoundedShare(wins, decisive, rate);
      rate
    else 0
  }

  /** The facts about the integer division that `WinRate` relies on. */
  lemma RoundedShare(wins: nat, decisive: nat, rate: int)
    requires 0 < decisive && wins <= decisive
    requires rate == (200 * wins + decisive) / (2 * decisive)
    ensures 0 <= rate <= 100
    ensures (2 * rate - 1) * decisive <= 200 * wins < (2 * rate + 1) * decisive
  {
    var n, d := 200 * wins + decisive, 2 * decisive;
    var m := n % d;
    var q := rate * d;
    assert n == q + m && 0 <= m < d;
    assert (2 * rate - 1) * decisive == q - decisive;
    assert (2 * rate + 1) * decisive == q + decisive;
    if rate < 0 {
      ProductBelow(rate, d, -1);
    }
    if rate > 100 {
      ProductBelow(101, d, rate);
    }
  }

  /** Multiplying by a positive number keeps an ordering. */
  lemma ProductBelow(a: int, d: int, b: int)
    requires 0 < d && a <= b
    ensures a * d <= b * d
  {
    assert b * d - a * d == (b - a) * d;
  }

  /** Which seat of `h` this player sat in: player 1 when the ids match, player 2 otherwise. */
  function Side(p: PlayerData, h: GameSummary): Verdict {
    if h.player1.id == p.id then Player1 else Player2
  }

  /** `addGameResult`: record the summary and update the counters from this player's side of it. */
  function AddResult(p: PlayerData, h: GameSummary, now: int): PlayerData
    requires h.player2.Some?
  {
    var isPlayer1 := h.player1.id == p.id;
    var myScore := if isPlayer1 then h.player1.score else h.player2.value.score;
    var opponentScore := if isPlayer1 then h.player2.value.score else h.player1.score;
    var played := p.stats.(gamesPlayed := p.stats.gamesPlayed + 1);
    var counted :=
      if h.winner == Some(if isPlayer1 then Player1 else Player2) then played.(wins := played.wins + 1)
      else if h.winner == Some(Tie) then played.(ties := played.ties + 1)
      else played.(losses := played.losses + 1);
    var totalled := counted.(totalRoundsWon := counted.totalRoundsWon + myScore,
                             totalRoundsLost := counted.totalRoundsLost + opponentScore);
    var rated := totalled.(winRate := WinRate(totalled.wins, totalled.losses));
    p.(gameHistory := Recorded(p.gameHistory, h), stats := rated, lastActive := now)
  }

  /** A new profile has all counters at zero and no history. */
  lemma NewcomerStep(id: PlayerId, name: string, avatar: string, now: int)
    ensures var p := Newcomer(id, name, avatar, now);
      && Tallied(p)
      && p.stats == Stats(0, 0, 0, 0, 0, 0, 0) && p.gameHistory == []
  {
  }

  /**
   * Recording a match adds one match played and exactly one win, tie or
   * loss: a win when the winner tag names this player's own seat, a tie on
   * 'tie', a loss otherwise.  The round totals grow by this player's score and
   * the opponent's; the summary goes first in the history, followed by the
   * earlier ones; identity, name, avatar and creation time stay.
   */
  lemma AddResultStep(p: PlayerData, h: GameSummary, now: int)
    requires Tallied(p) && h.player2.Some?
    ensures var r, s, side := AddResult(p, h, now), p.stats, Side(p, h);
      && Tallied(r)
      && r.stats.gamesPlayed == s.gamesPlayed + 1
      && r.stats.wins == s.wins + (if h.winner == Some(side) then 1 else 0)
      && r.stats.ties == s.ties + (if h.winner == Some(Tie) then 1 else 0)
      && r.stats.losses == s.losses + (if h.winner != Some(side) && h.winner != Some(Tie) then 1 else 0)
      && r.stats.totalRoundsWon == s.totalRoundsWon + (if side == Player1 then h.player1.score else h.player2.value.score)
      && r.stats.totalRoundsLost == s.totalRoundsLost + (if side == Player1 then h.player2.value.score else h.player1.score)
      && r.gameHistory[0] == h
      && r.gameHistory[1..] == p.gameHistory[..|r.gameHistory| - 1]
      && (r.id, r.name, r.avatar, r.createdAt, r.lastActive) == (p.id, p.name, p.avatar, p.createdAt, now)
  {
    var r := AddResult(p, h, now);
    assert |r.gameHistory| == Min(|p.gameHistory| + 1, HistoryCap);
    assert r.gameHistory[1..] == p.gameHistory[..|r.gameHistory| - 1];
  }

  /** The prefix `slice(0, limit)` takes: a negative limit counts back from the end. */
  function SliceEnd(length: nat, limit: int): (end: nat)
    ensures end <= length
  {
    if limit < 0 then Max(length + limit, 0) else Min(limit, length)
  }

  class Player {
    const id: PlayerId
    var name: string
    var avatar: string
    var stats: Stats
    var gameHistory: seq<GameSummary>
    const createdAt: int
    var lastActive: int

    function Data(): PlayerData
      reads this
    {
      PlayerData(id, name, avatar, stats, gameHistory, createdAt, lastActive)
    }

    ghost predicate Valid()
      reads this
    {
      Tallied(Data())
    }

    constructor (id: PlayerId, name: string, avatar: string, now: int)
      ensures Valid()
      ensures Data() == Newcomer(id, name, avatar, now)
    {
      this.id := id;
      this.name := name;
      this.avatar := avatar;
      stats := Stats(0, 0, 0, 0, 0, 0, 0);
      gameHistory := [];
      createdAt := now;
      lastActive := now;
    }

    method UpdateAvatar(newAvatar: string)
      requires Valid()
      modifies this
      ensures Valid()
      ensures Data() == old(Data()).(avatar := newAvatar)
    {
      avatar := newAvatar;
    }

    method AddGameResult(h: GameSummary, now: int)
      requires Valid() && h.player2.Some?
      modifies this
      ensures Valid()
      ensures Data() == AddResult(old(Data()), h, now)
    {
      ghost var p := Data();
      AddResultStep(p, h, now);
      gameHistory := [h] + gameHistory;
      if |gameHistory| > HistoryCap {
        gameHistory := gameHistory[..HistoryCap];
      }
      stats := stats.(gamesPlayed := stats.gamesPlayed + 1);
      var isPlayer1 := h.player1.id == id;
      var myScore := if isPlayer1 then h.player1.score else h.player2.value.score;
      var opponentScore := if isPlayer1 then h.player2.value.score else h.player1.score;
      if h.winner == Some(if isPlayer1 then Player1 else Player2) {
        stats := stats.(wins := stats.wins + 1);
      } else if h.winner == Some(Tie) {
        stats := stats.(ties := stats.ties + 1);
      } else {
        stats := stats.(losses := stats.losses + 1);
      }
      stats := stats.(totalRoundsWon := stats.totalRoundsWon + myScore);
      stats := stats.(totalRoundsLost := stats.totalRoundsLost + opponentScore);
      stats := stats.(winRate := WinRate(stats.wins, stats.losses));
      lastActive := now;
      assert gameHistory == Recorded(p.gameHistory, h);
      assert stats == AddResult(p, h, now).stats;
    }

    /** `getProfile`: the counters it reports are consistent with each other. */
    function GetProfile(): (v: ProfileView)
      requires Valid()
      reads this
      ensures v.stats.gamesPlayed == v.stats.wins + v.stats.ties + v.stats.losses
      ensures v.stats.winRate <= 100
      ensures (v.id, v.name, v.avatar) == (id, name, avatar)
      ensures (v.stats, v.createdAt, v.lastActive) == (stats, createdAt, lastActive)
    {
      ProfileView(id, name, avatar, stats, createdAt, lastActive)
    }

    /** `getGameHistory(limit)`: the newest `limit` summaries, without changing the history. */
    function GetGameHistory(limit: int): (r: seq<GameSummary>)
      reads this
      ensures r <= gameHistory
      ensures 0 <= limit ==> |r| == Min(limit, |gameHistory|)
      ensures limit < 0 ==> |r| == Max(|gameHistory| + limit, 0)
    {
      gameHistory[..SliceEnd(|gameHistory|, limit)]
    }
  }
}
