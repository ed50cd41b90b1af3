/**
 * One two-player match of backend/src/models/Game.js.
 *
 * A match is a `Game` object whose methods update its fields in place.  Its
 * value at any moment is a `GameData`; every method of `Game` is proved to
 * move that value exactly as one of the transition functions below
 * (`WithSecond`, `AfterMove`, `Resolved`, `Decided`, `Advanced`,
 * `Restarted`), and the lemmas beside those functions state what the
 * transitions promise: the round rule, scoring, when a match ends, and the
 * invariant `Consistent` that every transition keeps.
 */
module Match {
  import opened Wrappers

  type PlayerId = string

  /** The number of rounds a match lasts at most (`maxRounds`). */
  const MaxRounds: nat := 3

  /** The avatar used when none is given (the game-controller emoji). */
  const DefaultAvatar: string := "\U{1F3AE}"

  /** The three legal moves. */
  datatype Choice = Rock | Paper | Scissors

  /** The tags 'player1', 'player2' and 'tie' used for round and match winners. */
  datatype Verdict = Player1 | Player2 | Tie

  /** The match lifecycle: 'waiting', 'playing', 'finished', 'abandoned'. */
  datatype Status = Waiting | Playing | Finished | Abandoned

  /** The errors `Game` throws, with their messages given by `Message`. */
  datatype GameError = AlreadyFull | NotPlaying | InvalidChoice | NotInGame

  function Message(e: GameError): string {
    match e
    case AlreadyFull => "Game is already full"
    case NotPlaying => "Game is not in playing state"
    case InvalidChoice => "Invalid choice"
    case NotInGame => "Player not in this game"
  }

  /** One seat of a match: who sits there, the move of the current round, the score. */
  datatype Participant = Participant(id: PlayerId, name: string, avatar: string, choice: Option<Choice>, score: nat)

  /** One entry of `moveHistory`: a resolved round. */
  datatype MoveRecord = MoveRecord(round: nat, player1Choice: Choice, player2Choice: Choice, timestamp: int)

  /** The value of a `Game` object; times are milliseconds. */
  datatype GameData = GameData(
    id: string,
    player1: Participant,
    player2: Option<Participant>,
    status: Status,
    round: nat,
    maxRounds: nat,
    winner: Option<Verdict>,
    roundWinner: Option<Verdict>,
    createdAt: int,
    finishedAt: Option<int>,
    moveHistory: seq<MoveRecord>)

  /** What `getGameState` returns. */
  datatype GameView = GameView(
    id: string,
    player1: Participant,
    player2: Option<Participant>,
    status: Status,
    round: nat,
    maxRounds: nat,
    winner: Option<Verdict>,
    roundWinner: Option<Verdict>)

  /** A seat as `getGameHistory` reports it (no current move). */
  datatype SeatRecord = SeatRecord(id: PlayerId, name: string, avatar: string, score: nat)

  /** What `getGameHistory` returns: the summary a finished match leaves in a profile. */
  datatype GameSummary = GameSummary(
    id: string,
    player1: SeatRecord,
    player2: Option<SeatRecord>,
    winner: Option<Verdict>,
    moveHistory: seq<MoveRecord>,
    createdAt: int,
    finishedAt: Option<int>,
    duration: Option<int>)

  // ---------------------------------------------------------------------------
  // Moves and the round rule
  // ---------------------------------------------------------------------------

  function ChoiceName(c: Choice): string {
    match c
    case Rock => "rock"
    case Paper => "paper"
    case Scissors => "scissors"
  }

  /** The move check of `makeMove`: only the three move names are accepted. */
  function ParseChoice(s: string): (r: Option<Choice>)
    ensures r.Some? ==> ChoiceName(r.value) == s
    ensures r.None? ==> forall c: Choice :: ChoiceName(c) != s
  {
    if s == "rock" then Some(Rock)
    else if s == "paper" then Some(Paper)
    else if s == "scissors" then Some(Scissors)
    else None
  }

  /** Every move name is accepted as the move it names. */
  lemma ParseChoiceName(c: Choice)
    ensures ParseChoice(ChoiceName(c)) == Some(c)
  {
  }

  /** Position on the cycle rock, paper, scissors: each move beats the one before it. */
  function Rank(c: Choice): int {
    match c
    case Rock => 0
    case Paper => 1
    case Scissors => 2
  }

  /** `a` beats `b` when `a` comes right after `b` on the cycle (a reference definition). */
  predicate Beats(a: Choice, b: Choice) {
    (Rank(a) - Rank(b)) % 3 == 1
  }

  /** The round rule of `determineRoundWinner`, written as the source lists the three winning pairs. */
  function RoundOutcome(c1: Choice, c2: Choice): (v: Verdict)
    ensures v == Tie <==> c1 == c2
    ensures v == Player1 <==> Beats(c1, c2)
    ensures v == Player2 <==> Beats(c2, c1)
  {
    if c1 == c2 then Tie
    else if (c1 == Rock && c2 == Scissors) || (c1 == Paper && c2 == Rock) || (c1 == Scissors && c2 == Paper) then Player1
    else Player2
  }

  function Swap(v: Verdict): Verdict {
    match v
    case Player1 => Player2
    case Player2 => Player1
    case Tie => Tie
  }

  /** Exchanging the two moves exchanges the two players in the outcome. */
  lemma OutcomeSwap(c1: Choice, c2: Choice)
    ensures RoundOutcome(c2, c1) == Swap(RoundOutcome(c1, c2))
  {
  }

  // ---------------------------------------------------------------------------
  // Derived facts about a match
  // ---------------------------------------------------------------------------

  /** Whether `pid` sits in either seat. */
  predicate Participates(g: GameData, pid: PlayerId) {
    g.player1.id == pid || (g.player2.Some? && g.player2.value.id == pid)
  }

  /** Both seats hold a move for the current round (`player1.choice && player2.choice`). */
  predicate BothChosen(g: GameData) {
    g.player1.choice.Some? && g.player2.Some? && g.player2.value.choice.Some?
  }

  function SecondScore(g: GameData): nat {
    if g.player2.Some? then g.player2.value.score else 0
  }

  /** Some score exceeds half the round limit (`score > maxRounds / 2`, exact since both are integers). */
  predicate Decisive(g: GameData) {
    2 * g.player1.score > g.maxRounds || 2 * SecondScore(g) > g.maxRounds
  }

  /** The end-of-match test run after every resolved round. */
  predicate MatchOver(g: GameData) {
    g.round >= g.maxRounds || Decisive(g)
  }

  /** The winner tag of `determineGameWinner`: the higher score, or a tie. */
  function Leader(s1: nat, s2: nat): Verdict {
    if s1 > s2 then Player1 else if s2 > s1 then Player2 else Tie
  }

  /**
   * What holds of every match built by the constructor and the transitions
   * below: the second seat is empty exactly while waiting; a waiting match has
   * no move and no point; a winner exists only once the match has ended and
   * names the leader; a match still being played has no decisive score; and
   * every point was won in a logged round.
   */
  ghost predicate Consistent(g: GameData) {
    && g.maxRounds == MaxRounds
    && g.round >= 1
    && (g.player2.None? <==> g.status == Waiting)
    && (g.status == Waiting ==> g.player1.choice.None? && g.player1.score == 0)
    && (g.status == Waiting || g.status == Playing ==> g.winner.None?)
    && (g.status == Finished ==> g.winner.Some? && g.finishedAt.Some?)
    && (g.winner.Some? ==> g.player2.Some? && g.winner.value == Leader(g.player1.score, g.player2.value.score))
    && (g.status == Playing ==> !Decisive(g))
    && g.player1.score + SecondScore(g) <= |g.moveHistory|
  }

  // ---------------------------------------------------------------------------
  // Transitions
  // ---------------------------------------------------------------------------

  /** The state the constructor builds. */
  function Initial(id: string, p1Id: PlayerId, p1Name: string, p1Avatar: string, now: int): GameData {
    GameData(id, Participant(p1Id, p1Name, p1Avatar, None, 0), None, Waiting, 1, MaxRounds,
             None, None, now, None, [])
  }

  /** `addPlayer2`: refuses a match whose second seat is taken. */
  function WithSecond(g: GameData, id: PlayerId, name: string, avatar: string): Result<GameData, GameError> {
    if g.player2.Some? then Err(AlreadyFull)
    else Ok(g.(player2 := Some(Participant(id, name, avatar, None, 0)), status := Playing))
  }

  /** `makeMove`: records (or replaces) the mover's choice, then resolves the round once both seats hold one. */
  function AfterMove(g: GameData, pid: PlayerId, choice: string, now: int): Result<GameData, GameError> {
    if g.status != Playing then Err(NotPlaying)
    else if ParseChoice(choice).None? then Err(InvalidChoice)
    else
      var c := ParseChoice(choice);
      if g.player1.id == pid then Ok(Settled(g.(player1 := g.player1.(choice := c)), now))
      else if g.player2.Some? && g.player2.value.id == pid then
        Ok(Settled(g.(player2 := Some(g.player2.value.(choice := c))), now))
      else Err(NotInGame)
  }

  /** The mover's seat with its move set (or replaced); nothing else changes. */
  function Moved(g: GameData, pid: PlayerId, c: Option<Choice>): (m: GameData)
    requires Participates(g, pid)
    ensures m.(player1 := g.player1, player2 := g.player2) == g
    ensures pid == g.player1.id ==> m.player1 == g.player1.(choice := c) && m.player2 == g.player2
    ensures pid != g.player1.id ==> m.player1 == g.player1 && m.player2 == Some(g.player2.value.(choice := c))
  {
    if g.player1.id == pid then g.(player1 := g.player1.(choice := c))
    else g.(player2 := Some(g.player2.value.(choice := c)))
  }

  /** The tail of `makeMove`: resolution runs only when both seats hold a move. */
  function Settled(g: GameData, now: int): GameData {
    if BothChosen(g) then Resolved(g, now) else g
  }

  /** `determineRoundWinner`: log the round, score it, and end the match if it is over. */
  function Resolved(g: GameData, now: int): GameData
    requires BothChosen(g)
  {
    var scored := Scored(g, now);
    if MatchOver(scored) then Decided(scored, now) else scored
  }

  /** The round logged and scored, before the end-of-match test. */
  function Scored(g: GameData, now: int): GameData
    requires BothChosen(g)
  {
    var c1 := g.player1.choice.value;
    var c2 := g.player2.value.choice.value;
    var logged := g.(moveHistory := g.moveHistory + [MoveRecord(g.round, c1, c2, now)]);
    match RoundOutcome(c1, c2)
    case Tie => logged.(roundWinner := Some(Tie))
    case Player1 => logged.(roundWinner := Some(Player1), player1 := logged.player1.(score := logged.player1.score + 1))
    case Player2 => logged.(roundWinner := Some(Player2), player2 := Some(logged.player2.value.(score := logged.player2.value.score + 1)))
  }

  /** `determineGameWinner`. */
  function Decided(g: GameData, now: int): GameData
    requires g.player2.Some?
  {
    g.(winner := Some(Leader(g.player1.score, g.player2.value.score)), status := Finished, finishedAt := Some(now))
  }

  /** `nextRound`. */
  function Advanced(g: GameData): GameData
    requires g.player2.Some?
  {
    g.(round := g.round + 1,
       player1 := g.player1.(choice := None),
       player2 := Some(g.player2.value.(choice := None)),
       roundWinner := None)
  }

  /** `reset`. */
  function Restarted(g: GameData): GameData
    requires g.player2.Some?
  {
    g.(player1 := g.player1.(choice := None, score := 0),
       player2 := Some(g.player2.value.(choice := None, score := 0)),
       round := 1,
       winner := None,
       roundWinner := None,
       status := Playing)
  }

  // ---------------------------------------------------------------------------
  // Views
  // ---------------------------------------------------------------------------

  /** `getGameState`: the seats, status, round, round limit and winners as they are. */
  function StateView(g: GameData): (v: GameView)
    ensures (v.id, v.status, v.round, v.maxRounds, v.winner, v.roundWinner)
         == (g.id, g.status, g.round, g.maxRounds, g.winner, g.roundWinner)
    ensures v.player1 == g.player1 && v.player2 == g.player2
  {
    GameView(g.id, g.player1, g.player2, g.status, g.round, g.maxRounds, g.winner, g.roundWinner)
  }

  /** A round is still open to moves: the source hides choices exactly then. */
  predicate Concealed(g: GameData) {
    g.status == Playing && !BothChosen(g)
  }

  /**
   * `getPlayerState`: the state as `viewer` may see it.  While a round is
   * open, the opponent's move is hidden from a seated viewer, whose own move
   * stays visible; everything else is shown as it is.
   */
  function PlayerView(g: GameData, viewer: PlayerId): (v: GameView)
    ensures (v.id, v.status, v.round, v.maxRounds, v.winner, v.roundWinner)
         == (g.id, g.status, g.round, g.maxRounds, g.winner, g.roundWinner)
    ensures v.player1.(choice := None) == g.player1.(choice := None)
    ensures v.player2.Some? <==> g.player2.Some?
    ensures v.player2.Some? ==> v.player2.value.(choice := None) == g.player2.value.(choice := None)
    ensures Concealed(g) && g.player2.Some? && viewer == g.player1.id ==>
              v.player2.value.choice.None? && v.player1.choice == g.player1.choice
    ensures Concealed(g) && g.player2.Some? && viewer != g.player1.id && viewer == g.player2.value.id ==>
              v.player1.choice.None? && v.player2.value.choice == g.player2.value.choice
    ensures !(Concealed(g) && Participates(g, viewer)) ==>
              v.player1.choice == g.player1.choice && (g.player2.Some? ==> v.player2.value.choice == g.player2.value.choice)
  {
    var state := StateView(g);
    if Concealed(g) then
      if g.player1.id == viewer && g.player2.Some? then
        state.(player2 := Some(state.player2.value.(choice := None)))
      else if g.player2.Some? && g.player2.value.id == viewer then
        state.(player1 := state.player1.(choice := None))
      else state
    else state
  }

  /**
   * The per-viewer state is the full state except while a round is open and
   * the viewer is seated; then it differs only in the opponent's move.
   */
  lemma PlayerViewOfState(g: GameData, viewer: PlayerId)
    ensures !(Concealed(g) && Participates(g, viewer)) ==> PlayerView(g, viewer) == StateView(g)
    ensures Concealed(g) && g.player2.Some? && viewer == g.player1.id ==>
              PlayerView(g, viewer) == StateView(g).(player2 := Some(g.player2.value.(choice := None)))
    ensures Concealed(g) && g.player2.Some? && viewer != g.player1.id && viewer == g.player2.value.id ==>
              PlayerView(g, viewer) == StateView(g).(player1 := g.player1.(choice := None))
  {
  }

  /** `getGameHistory`; the duration is in whole seconds, rounded down. */
  function Summary(g: GameData): (s: GameSummary)
    ensures (s.id, s.winner, s.moveHistory, s.createdAt, s.finishedAt) == (g.id, g.winner, g.moveHistory, g.createdAt, g.finishedAt)
    ensures s.player1 == SeatRecord(g.player1.id, g.player1.name, g.player1.avatar, g.player1.score)
    ensures g.player2.Some? ==> s.player2 == Some(SeatRecord(g.player2.value.id, g.player2.value.name, g.player2.value.avatar, g.player2.value.score))
    ensures s.player2.Some? <==> g.player2.Some?
    ensures s.duration.Some? <==> g.finishedAt.Some?
    ensures s.duration.Some? ==>
              1000 * s.duration.value <= g.finishedAt.value - g.createdAt < 1000 * (s.duration.value + 1)
  {
    var duration := if g.finishedAt.Some? then Some((g.finishedAt.value - g.createdAt) / 1000) else None;
    GameSummary(
      g.id,
      SeatRecord(g.player1.id, g.player1.name, g.player1.avatar, g.player1.score),
      if g.player2.Some? then Some(SeatRecord(g.player2.value.id, g.player2.value.name, g.player2.value.avatar, g.player2.value.score)) else None,
      g.winner, g.moveHistory, g.createdAt, g.finishedAt, duration)
  }

  // ---------------------------------------------------------------------------
  // What the transitions promise
  // ---------------------------------------------------------------------------

  /** A new match is waiting for its second player, at round 1 of 3, with no move, point or winner. */
  lemma InitialStep(id: string, p1Id: PlayerId, p1Name: string, p1Avatar: string, now: int)
    ensures var g := Initial(id, p1Id, p1Name, p1Avatar, now);
      && Consistent(g)
      && g.status == Waiting && g.round == 1 && g.maxRounds == 3 && g.player2.None?
      && g.player1.choice.None? && g.player1.score == 0 && g.winner.None?
  {
  }

  /** A consistent match takes a second player exactly while it is waiting, and then starts. */
  lemma WithSecondStep(g: GameData, id: PlayerId, name: string, avatar: string)
    requires Consistent(g)
    ensures var r := WithSecond(g, id, name, avatar);
      && (r.Ok? <==> g.status == Waiting)
      && (r.Err? ==> r.error == AlreadyFull)
      && (r.Ok? ==> && Consistent(r.value)
                    && r.value.status == Playing
                    && r.value.player1 == g.player1
                    && r.value.player2 == Some(Participant(id, name, avatar, None, 0)))
  {
  }

  /**
   * A move is refused exactly when the match is not being played, the move
   * is not a move name, or the mover sits in neither seat.  An accepted move
   * sets (or overwrites) the mover's choice, leaves the other seat's choice
   * alone, logs one round exactly when both seats now hold a move, and keeps
   * the match consistent.
   */
  lemma AfterMoveStep(g: GameData, pid: PlayerId, choice: string, now: int)
    requires Consistent(g)
    ensures var r := AfterMove(g, pid, choice, now);
      && (r.Err? <==> g.status != Playing || ParseChoice(choice).None? || !Participates(g, pid))
      && (r.Ok? ==>
            && Consistent(r.value)
            && (pid == g.player1.id ==> r.value.player1.choice == ParseChoice(choice))
            && (pid != g.player1.id ==> r.value.player2.value.choice == ParseChoice(choice)
                                        && r.value.player1.choice == g.player1.choice)
            && (pid == g.player1.id && pid != g.player2.value.id ==>
                  r.value.player2.value.choice == g.player2.value.choice)
            && r.value.moveHistory ==
                 (if BothChosen(r.value)
                  then g.moveHistory + [MoveRecord(g.round, r.value.player1.choice.value, r.value.player2.value.choice.value, now)]
                  else g.moveHistory)
            && var m := Moved(g, pid, ParseChoice(choice));
            && (BothChosen(r.value) ==> r.value == Resolved(m, now))
            && (!BothChosen(r.value) ==>
                  && r.value == m
                  && r.value.(player1 := g.player1, player2 := g.player2) == g
                  && r.value.player1.score == g.player1.score
                  && r.value.player2.value.score == g.player2.value.score))
  {
    var r := AfterMove(g, pid, choice, now);
    if r.Ok? {
      var moved := Moved(g, pid, ParseChoice(choice));
      assert r.value == Settled(moved, now);
      if BothChosen(moved) {
        ResolvedStep(moved, now);
      }
    }
  }

  /**
   * Resolving a round of a match being played logs exactly one entry for the
   * current round, gives one point to the round's winner and none to anybody
   * else, and ends the match exactly when the round limit is reached or a score
   * passes half of it, naming the leader as winner.
   */
  lemma ResolvedStep(g: GameData, now: int)
    requires Consistent(g) && g.status == Playing && BothChosen(g)
    ensures var c1, c2, r := g.player1.choice.value, g.player2.value.choice.value, Resolved(g, now);
      && Consistent(r)
      && r.moveHistory == g.moveHistory + [MoveRecord(g.round, c1, c2, now)]
      && r.roundWinner == Some(RoundOutcome(c1, c2))
      && r.player1 == g.player1.(score := g.player1.score + if Beats(c1, c2) then 1 else 0)
      && r.player2 == Some(g.player2.value.(score := g.player2.value.score + if Beats(c2, c1) then 1 else 0))
      && r.round == g.round
      && (r.status == Finished <==> r.round >= MaxRounds || 2 * r.player1.score > MaxRounds || 2 * r.player2.value.score > MaxRounds)
      && (r.status != Finished ==> r.status == Playing && r.winner.None? && r.finishedAt == g.finishedAt)
      && (r.status == Finished ==> r.winner == Some(Leader(r.player1.score, r.player2.value.score)) && r.finishedAt == Some(now))
  {
  }

  /** `nextRound` moves to the following round with both moves and the round winner cleared; scores and status stay. */
  lemma AdvancedStep(g: GameData)
    requires Consistent(g) && g.player2.Some?
    ensures var r := Advanced(g);
      && Consistent(r)
      && r.round == g.round + 1
      && r.player1 == g.player1.(choice := None)
      && r.player2 == Some(g.player2.value.(choice := None))
      && r.roundWinner.None?
      && r.status == g.status && r.winner == g.winner && r.moveHistory == g.moveHistory
  {
  }

  /** `reset` restarts a match with both players at round 1, keeping the move log and the finishing time. */
  lemma RestartedStep(g: GameData)
    requires Consistent(g) && g.player2.Some?
    ensures var r := Restarted(g);
      && Consistent(r)
      && r.status == Playing && r.round == 1
      && r.player1 == g.player1.(choice := None, score := 0)
      && r.player2 == Some(g.player2.value.(choice := None, score := 0))
      && r.winner.None? && r.roundWinner.None?
      && r.moveHistory == g.moveHistory && r.finishedAt == g.finishedAt
  {
  }

  // ---------------------------------------------------------------------------
  // The game object
  // ---------------------------------------------------------------------------

  /** How a throwing method's outcome and new state follow from a transition's result. */
  ghost predicate Stepped(res: Result<GameData, GameError>, before: GameData, after: GameData, out: Outcome<GameError>) {
    match res
    case Ok(d) => out == Pass && after == d
    case Err(e) => out == Fail(e) && after == before
  }

  class Game {
    const id: string
    var player1: Participant
    var player2: Option<Participant>
    var status: Status
    var round: nat
    const maxRounds: nat
    var winner: Option<Verdict>
    var roundWinner: Option<Verdict>
    const createdAt: int
    var finishedAt: Option<int>
    var moveHistory: seq<MoveRecord>

    function Data(): GameData
      reads this
    {
      GameData(id, player1, player2, status, round, maxRounds, winner, roundWinner, createdAt, finishedAt, moveHistory)
    }

    ghost predicate Valid()
      reads this
    {
      Consistent(Data())
    }

    constructor (id: string, player1Id: PlayerId, player1Name: string, player1Avatar: string, now: int)
      ensures Valid()
      ensures Data() == Initial(id, player1Id, player1Name, player1Avatar, now)
    {
      this.id := id;
      player1 := Participant(player1Id, player1Name, player1Avatar, None, 0);
      player2 := None;
      status := Waiting;
      round := 1;
      maxRounds := MaxRounds;
      winner := None;
      roundWinner := None;
      createdAt := now;
      finishedAt := None;
      moveHistory := [];
    }

    method AddPlayer2(player2Id: PlayerId, player2Name: string, player2Avatar: string) returns (r: Outcome<GameError>)
      requires Valid()
      modifies this
      ensures Valid()
      ensures Stepped(WithSecond(old(Data()), player2Id, player2Name, player2Avatar), old(Data()), Data(), r)
    {
      if player2.Some? {
        return Fail(AlreadyFull);
      }
      player2 := Some(Participant(player2Id, player2Name, player2Avatar, None, 0));
      status := Playing;
      r := Pass;
      WithSecondStep(old(Data()), player2Id, player2Name, player2Avatar);
    }

    method MakeMove(playerId: PlayerId, choice: string, now: int) returns (r: Outcome<GameError>)
      requires Valid()
      modifies this
      ensures Valid()
      ensures Stepped(AfterMove(old(Data()), playerId, choice, now), old(Data()), Data(), r)
    {
      if status != Playing {
        return Fail(NotPlaying);
      }
      var c := ParseChoice(choice);
      if c.None? {
        return Fail(InvalidChoice);
      }
      if player1.id == playerId {
        player1 := player1.(choice := c);
      } else if player2.Some? && player2.value.id == playerId {
        player2 := Some(player2.value.(choice := c));
      } else {
        return Fail(NotInGame);
      }
      if player1.choice.Some? && player2.Some? && player2.value.choice.Some? {
        DetermineRoundWinner(now);
      }
      r := Pass;
      AfterMoveStep(old(Data()), playerId, choice, now);
    }

    method DetermineRoundWinner(now: int)
      requires BothChosen(Data())
      modifies this
      ensures Data() == Resolved(old(Data()), now)
    {
      var p1Choice := player1.choice.value;
      var p2Choice := player2.value.choice.value;
      moveHistory := moveHistory + [MoveRecord(round, p1Choice, p2Choice, now)];
      if p1Choice == p2Choice {
        roundWinner := Some(Tie);
      } else if (p1Choice == Rock && p2Choice == Scissors) || (p1Choice == Paper && p2Choice == Rock) || (p1Choice == Scissors && p2Choice == Paper) {
        roundWinner := Some(Player1);
        player1 := player1.(score := player1.score + 1);
      } else {
        roundWinner := Some(Player2);
        player2 := Some(player2.value.(score := player2.value.score + 1));
      }
      assert Data() == Scored(old(Data()), now);
      if round >= maxRounds || 2 * player1.score > maxRounds || 2 * player2.value.score > maxRounds {
        DetermineGameWinner(now);
      }
    }

    method DetermineGameWinner(now: int)
      requires player2.Some?
      modifies this
      ensures Data() == Decided(old(Data()), now)
    {
      if player1.score > player2.value.score {
        winner := Some(Player1);
      } else if player2.value.score > player1.score {
        winner := Some(Player2);
      } else {
        winner := Some(Tie);
      }
      status := Finished;
      finishedAt := Some(now);
    }

    method NextRound()
      requires Valid() && player2.Some?
      modifies this
      ensures Valid()
      ensures Data() == Advanced(old(Data()))
    {
      round := round + 1;
      player1 := player1.(choice := None);
      player2 := Some(player2.value.(choice := None));
      roundWinner := None;
      AdvancedStep(old(Data()));
    }

    method Reset()
      requires Valid() && player2.Some?
      modifies this
      ensures Valid()
      ensures Data() == Restarted(old(Data()))
    {
      player1 := player1.(choice := None, score := 0);
      player2 := Some(player2.value.(choice := None, score := 0));
      round := 1;
      winner := None;
      roundWinner := None;
      status := Playing;
      RestartedStep(old(Data()));
    }
  }
}
