/**
 * The in-memory registry of backend/src/controllers/gameController.js: all
 * matches by id, the index from a player to the match they are in, and the
 * players' profiles; plus the quick-join policy of
 * server/src/socket/socketHandler.js, which composes two of its operations.
 *
 * The source keeps three JavaScript `Map`s.  A `Map` iterates in insertion
 * order and the controller relies on it (the first waiting match, the order
 * of the games list, the order in which expired matches reach the profiles),
 * so the model keeps that order in `order` beside the `games` map.
 */
module Registry {
  import opened Wrappers
  import opened Match
  import opened Profile

  /** How long a finished or abandoned match is kept: 30 minutes, in milliseconds. */
  const MaxAge: int := 30 * 60 * 1000

  /** The errors the controller throws; `NoSecondPlayer` stands for the crash of `reset` assigning to an empty second seat. */
  datatype RegistryError = GameNotFound | NotJoinable | NotInAnyGame | NoSecondPlayer | Rejected(reason: GameError)

  function RegistryMessage(e: RegistryError): string {
    match e
    case GameNotFound => "Game not found"
    case NotJoinable => "Game is not available for joining"
    case NotInAnyGame => "Player not in any game"
    case NoSecondPlayer => "Cannot set properties of null (setting 'choice')"
    case Rejected(reason) => Message(reason)
  }

  /** One entry of `getGamesList`. */
  datatype GameListing = GameListing(id: string, status: Status, playersCount: nat, round: nat, createdAt: int)

  /** What quick-join did: joined a waiting match, or created one. */
  datatype QuickJoined = Joined(game: Game) | Created(game: Game)

  // ---------------------------------------------------------------------------
  // Insertion order
  // ---------------------------------------------------------------------------

  /** No id occurs twice. */
  ghost predicate Distinct(s: seq<string>) {
    forall i, j | 0 <= i < j < |s| :: s[i] != s[j]
  }

  lemma DistinctPrepend(x: string, s: seq<string>)
    requires x !in s && Distinct(s)
    ensures Distinct([x] + s)
  {
    forall i, j | 0 <= i < j < |[x] + s|
      ensures ([x] + s)[i] != ([x] + s)[j]
    {
      assert ([x] + s)[j] == s[j - 1];
      if i > 0 {
        assert ([x] + s)[i] == s[i - 1];
      }
    }
  }

  /** The insertion order after `Map.delete(k)`. */
  function Without(s: seq<string>, k: string): (r: seq<string>)
    ensures forall x :: x in r <==> x in s && x != k
    ensures Distinct(s) ==> Distinct(r)
  {
    if s == [] then []
    else
      var rest := Without(s[1..], k);
      if s[0] == k then rest
      else
        assert Distinct(s) ==> Distinct([s[0]] + rest) by {
          if Distinct(s) {
            forall j | 0 <= j < |s[1..]| ensures s[1..][j] != s[0] { assert s[1..][j] == s[j + 1]; }
            DistinctPrepend(s[0], rest);
          }
        }
        [s[0]] + rest
  }

  /** `s` without the ids in `d`, in order. */
  function Purged(s: seq<string>, d: set<string>): (r: seq<string>)
    ensures forall x :: x in r <==> x in s && x !in d
  {
    if s == [] then [] else (if s[0] in d then [] else [s[0]]) + Purged(s[1..], d)
  }

  /** Deleting ids one after another is purging them all at once. */
  lemma {:induction false} PurgedMore(s: seq<string>, d: set<string>, k: string)
    ensures Without(Purged(s, d), k) == Purged(s, d + {k})
  {
    if s != [] {
      PurgedMore(s[1..], d, k);
      var rest := Purged(s[1..], d);
      if s[0] in d {
        assert Purged(s, d) == rest;
      } else {
        assert Purged(s, d) == [s[0]] + rest;
        assert ([s[0]] + rest)[1..] == rest;
      }
    }
  }

  // ---------------------------------------------------------------------------
  // The registry as a value
  // ---------------------------------------------------------------------------

  /** The ids of the players seated in a match. */
  function Seats(g: GameData): (s: set<PlayerId>)
    ensures forall p :: p in s <==> Participates(g, p)
  {
    {g.player1.id} + (if g.player2.Some? then {g.player2.value.id} else {})
  }

  /**
   * The `games` and `players` maps of a controller, with the insertion order
   * of `games`.
   */
  datatype Tables = Tables(games: map<string, GameData>, order: seq<string>, players: map<PlayerId, string>)

  /**
   * The registry invariant: no match is stored under the empty id, every
   * match sits under its own id and is consistent, the insertion order lists
   * each stored id once, and every indexed player is seated in the match the
   * index names.
   */
  ghost predicate WellFormed(t: Tables) {
    && "" !in t.games
    && (forall k | k in t.games :: t.games[k].id == k && Consistent(t.games[k]))
    && Distinct(t.order)
    && (forall k :: k in t.order <==> k in t.games)
    && (forall p | p in t.players :: t.players[p] in t.games && Participates(t.games[t.players[p]], p))
  }

  /** `getPlayerAvatar` over the profiles: the stored avatar, or the default one. */
  function AvatarOf(ps: map<PlayerId, PlayerData>, pid: PlayerId): string {
    if pid in ps then ps[pid].avatar else DefaultAvatar
  }

  /** `playerAvatar || this.getPlayerAvatar(playerId)`: the empty string counts as no avatar. */
  function AvatarFor(ps: map<PlayerId, PlayerData>, pid: PlayerId, given: string): string {
    if given != "" then given else AvatarOf(ps, pid)
  }

  /** `createGame` under the fresh id `gid`. */
  function Create(t: Tables, gid: string, pid: PlayerId, name: string, avatar: string, now: int): Tables {
    Tables(t.games[gid := Initial(gid, pid, name, avatar, now)], t.order + [gid], t.players[pid := gid])
  }

  /** `joinGame`. */
  function Join(t: Tables, gid: string, pid: PlayerId, name: string, avatar: string): Result<Tables, RegistryError> {
    if gid !in t.games then Err(GameNotFound)
    else if t.games[gid].status != Waiting then Err(NotJoinable)
    else
      match WithSecond(t.games[gid], pid, name, avatar)
      case Err(e) => Err(Rejected(e))
      case Ok(g) => Ok(t.(games := t.games[gid := g], players := t.players[pid := gid]))
  }

  /** A stored match that is waiting for its second player. */
  predicate Open(gm: map<string, GameData>, k: string) {
    k in gm && gm[k].status == Waiting
  }

  /** `findAvailableGame`: the position in `ks` of the first waiting match, or `|ks|` when there is none. */
  function FirstOpen(gm: map<string, GameData>, ks: seq<string>): (i: nat)
    ensures i <= |ks|
    ensures forall j | 0 <= j < i :: !Open(gm, ks[j])
    ensures i < |ks| ==> Open(gm, ks[i])
  {
    if ks == [] || Open(gm, ks[0]) then 0
    else
      var i := 1 + FirstOpen(gm, ks[1..]);
      assert forall j | 1 <= j < i :: ks[j] == ks[1..][j - 1];
      i
  }

  /** `FirstOpen` is the only position with no waiting match before it and a waiting one at it (or the end). */
  lemma {:induction false} FirstOpenAt(gm: map<string, GameData>, ks: seq<string>, i: nat)
    requires i <= |ks| && forall j | 0 <= j < i :: !Open(gm, ks[j])
    requires i < |ks| ==> Open(gm, ks[i])
    ensures FirstOpen(gm, ks) == i
  {
    if ks != [] && !Open(gm, ks[0]) {
      assert i != 0;
      forall j | 0 <= j < i - 1 ensures !Open(gm, ks[1..][j]) {
        assert ks[1..][j] == ks[j + 1];
      }
      FirstOpenAt(gm, ks[1..], i - 1);
    }
  }

  /** When no position is open, no match of a well-formed registry is waiting. */
  lemma NoneOpen(t: Tables)
    requires WellFormed(t) && FirstOpen(t.games, t.order) == |t.order|
    ensures forall k | k in t.games :: t.games[k].status != Waiting
  {
    forall k | k in t.games ensures t.games[k].status != Waiting {
      var j :| 0 <= j < |t.order| && t.order[j] == k;
      assert !Open(t.games, t.order[j]);
    }
  }

  /** Whether the index has no usable entry for `pid` (`!gameId`). */
  predicate Unindexed(t: Tables, pid: PlayerId) {
    pid !in t.players || t.players[pid] == ""
  }

  /** The controller's `makeMove`: find the mover's match through the index and move there. */
  function Move(t: Tables, pid: PlayerId, choice: string, now: int): Result<Tables, RegistryError> {
    if Unindexed(t, pid) then Err(NotInAnyGame)
    else if t.players[pid] !in t.games then Err(GameNotFound)
    else
      var gid := t.players[pid];
      match AfterMove(t.games[gid], pid, choice, now)
      case Err(e) => Err(Rejected(e))
      case Ok(g) => Ok(t.(games := t.games[gid := g]))
  }

  /** `removePlayerFromGame`. */
  function Remove(t: Tables, pid: PlayerId): Tables {
    if Unindexed(t, pid) then t
    else
      var gid := t.players[pid];
      var unindexed := t.(players := t.players - {pid});
      if gid !in t.games then unindexed
      else if t.games[gid].status == Waiting then Dropped(unindexed, gid)
      else Deserted(unindexed, gid)
  }

  /** Deleting a match together with its insertion-order entry. */
  function Dropped(t: Tables, gid: string): Tables {
    t.(games := t.games - {gid}, order := Without(t.order, gid))
  }

  /** Marking a stored match abandoned. */
  function Deserted(t: Tables, gid: string): Tables
    requires gid in t.games
  {
    t.(games := t.games[gid := t.games[gid].(status := Abandoned)])
  }

  /** `resetGame`; the source crashes on a match without a second player, reported here as `NoSecondPlayer`. */
  function ResetIn(t: Tables, gid: string): Result<Tables, RegistryError> {
    if gid !in t.games then Err(GameNotFound)
    else if t.games[gid].player2.None? then Err(NoSecondPlayer)
    else Ok(t.(games := t.games[gid := Restarted(t.games[gid])]))
  }

  /** The games-list entry for a stored match. */
  function Listing(id: string, g: GameData): GameListing {
    GameListing(id, g.status, if g.player2.Some? then 2 else 1, g.round, g.createdAt)
  }

  /** `getGamesList` over the ids `ks`, in their order. */
  function Listings(gm: map<string, GameData>, ks: seq<string>): (r: seq<GameListing>)
    requires forall k | k in ks :: k in gm
    ensures |r| == |ks|
  {
    if ks == [] then []
    else Listings(gm, ks[..|ks| - 1]) + [Listing(ks[|ks| - 1], gm[ks[|ks| - 1]])]
  }

  /** A match the cleanup deletes: finished or abandoned, and created more than `MaxAge` before `now`. */
  predicate Expired(g: GameData, now: int) {
    (g.status == Finished || g.status == Abandoned) && now - g.createdAt > MaxAge
  }

  /** One iteration of `cleanupFinishedGames`, at id `k`. */
  function SweepKey(t: Tables, k: string, now: int): Tables {
    if k in t.games && Expired(t.games[k], now) then
      Tables(t.games - {k}, Without(t.order, k), t.players - Seats(t.games[k]))
    else t
  }

  /** The iterations of `cleanupFinishedGames` at the ids `ks`, in order. */
  function Swept(t: Tables, ks: seq<string>, now: int): Tables {
    if ks == [] then t else SweepKey(Swept(t, ks[..|ks| - 1], now), ks[|ks| - 1], now)
  }

  /** `cleanupFinishedGames`: one iteration per stored id, in insertion order. */
  function Sweep(t: Tables, now: int): Tables {
    Swept(t, t.order, now)
  }

  /** Deleting the index entries of both seats one after the other. */
  lemma UnseatBoth(m: map<PlayerId, string>, g: GameData)
    ensures g.player2.Some? ==> m - {g.player1.id} - {g.player2.value.id} == m - Seats(g)
    ensures g.player2.None? ==> m - {g.player1.id} == m - Seats(g)
  {
  }

  /** The ids among `ks` whose match has expired. */
  function SweptBy(gm: map<string, GameData>, ks: seq<string>, now: int): (r: set<string>)
    ensures forall k :: k in r <==> k in ks && k in gm && Expired(gm[k], now)
  {
    if ks == [] then {}
    else
      var k := ks[|ks| - 1];
      assert forall x :: x in ks <==> x in ks[..|ks| - 1] || x == k;
      SweptBy(gm, ks[..|ks| - 1], now) + (if k in gm && Expired(gm[k], now) then {k} else {})
  }

  /** The players seated in the expired matches among `ks`. */
  function FreedBy(gm: map<string, GameData>, ks: seq<string>, now: int): set<PlayerId> {
    if ks == [] then {}
    else
      var k := ks[|ks| - 1];
      FreedBy(gm, ks[..|ks| - 1], now) + (if k in gm && Expired(gm[k], now) then Seats(gm[k]) else {})
  }

  /** A player is freed exactly when seated in some expired match among `ks`. */
  lemma {:induction false} FreedByMeaning(gm: map<string, GameData>, ks: seq<string>, now: int)
    ensures forall p :: p in FreedBy(gm, ks, now) <==> exists k | k in ks && k in gm && Expired(gm[k], now) :: Participates(gm[k], p)
  {
    if ks != [] {
      var k := ks[|ks| - 1];
      FreedByMeaning(gm, ks[..|ks| - 1], now);
      assert forall x :: x in ks <==> x in ks[..|ks| - 1] || x == k;
    }
  }

  // ---------------------------------------------------------------------------
  // What the registry operations promise
  // ---------------------------------------------------------------------------

  /**
   * A match created under a fresh id is stored waiting, last in insertion
   * order, and its creator is indexed to it; no other match changes.
   */
  lemma CreateStep(t: Tables, gid: string, pid: PlayerId, name: string, avatar: string, now: int)
    requires WellFormed(t) && gid != "" && gid !in t.games
    ensures var r := Create(t, gid, pid, name, avatar, now);
      && WellFormed(r)
      && r.games.Keys == t.games.Keys + {gid}
      && r.games[gid].status == Waiting && r.games[gid].player1.id == pid && r.games[gid].player2.None?
      && (forall k | k in t.games :: r.games[k] == t.games[k])
      && r.order == t.order + [gid]
      && r.players[pid] == gid
      && (forall q | q in t.players && q != pid :: q in r.players && r.players[q] == t.players[q])
  {
    InitialStep(gid, pid, name, avatar, now);
    var r := Create(t, gid, pid, name, avatar, now);
    assert Distinct(r.order) by {
      forall i, j | 0 <= i < j < |r.order| ensures r.order[i] != r.order[j] {
        if j == |t.order| {
          assert r.order[i] == t.order[i];
        } else {
          assert r.order[i] == t.order[i] && r.order[j] == t.order[j];
        }
      }
    }
  }

  /**
   * Joining fails with "Game not found" on an unknown id and with "not
   * available" on a match that is not waiting; otherwise the match starts with
   * the joiner in the second seat and the joiner is indexed to it.
   */
  lemma JoinStep(t: Tables, gid: string, pid: PlayerId, name: string, avatar: string)
    requires WellFormed(t)
    ensures var r := Join(t, gid, pid, name, avatar);
      && (r.Err? <==> !Open(t.games, gid))
      && (gid !in t.games ==> r == Err(GameNotFound))
      && (gid in t.games && t.games[gid].status != Waiting ==> r == Err(NotJoinable))
      && (r.Ok? ==>
            && WellFormed(r.value)
            && r.value.games.Keys == t.games.Keys && r.value.order == t.order
            && r.value.games[gid].status == Playing
            && r.value.games[gid].player1 == t.games[gid].player1
            && r.value.games[gid].player2 == Some(Participant(pid, name, avatar, None, 0))
            && (forall k | k in t.games && k != gid :: r.value.games[k] == t.games[k])
            && r.value.players == t.players[pid := gid])
  {
    if Open(t.games, gid) {
      WithSecondStep(t.games[gid], pid, name, avatar);
    }
  }

  /**
   * In a well-formed registry the controller's "Game not found" cannot occur:
   * an indexed mover always reaches a match that seats them.  An unindexed
   * mover is refused; otherwise the move succeeds or fails exactly as the
   * match's own `makeMove` does, and only that match changes.
   */
  lemma MoveStep(t: Tables, pid: PlayerId, choice: string, now: int)
    requires WellFormed(t)
    ensures var r := Move(t, pid, choice, now);
      && (r == Err(NotInAnyGame) <==> pid !in t.players)
      && r != Err(GameNotFound)
      && (pid in t.players ==>
            var gid := t.players[pid];
            var m := AfterMove(t.games[gid], pid, choice, now);
            && Participates(t.games[gid], pid)
            && (r.Ok? <==> m.Ok?)
            && (m.Err? ==> r == Err(Rejected(m.error)))
            && (r.Ok? ==> && WellFormed(r.value)
                          && r.value.games == t.games[gid := m.value]
                          && r.value.order == t.order && r.value.players == t.players))
  {
    if pid in t.players {
      var gid := t.players[pid];
      var m := AfterMove(t.games[gid], pid, choice, now);
      if m.Ok? {
        AfterMoveKeeps(t.games[gid], pid, choice, now);
        var r := t.(games := t.games[gid := m.value]);
        assert forall p | p in r.players :: Participates(r.games[r.players[p]], p);
      }
    }
  }

  /** An accepted move keeps the match consistent, under its id, with the same players seated. */
  lemma AfterMoveKeeps(g: GameData, pid: PlayerId, choice: string, now: int)
    requires Consistent(g)
    ensures var r := AfterMove(g, pid, choice, now);
      r.Ok? ==> Consistent(r.value) && r.value.id == g.id && Seats(r.value) == Seats(g)
  {
    AfterMoveStep(g, pid, choice, now);
  }

  /**
   * Detaching a player drops their index entry.  Their waiting match is
   * deleted, any other match of theirs is marked abandoned, and an unindexed
   * player changes nothing.
   */
  lemma RemoveStep(t: Tables, pid: PlayerId)
    requires WellFormed(t)
    ensures var r := Remove(t, pid);
      && WellFormed(r)
      && pid !in r.players
      && (pid !in t.players ==> r == t)
      && r.players == t.players - {pid}
      && (pid in t.players && t.games[t.players[pid]].status == Waiting ==>
            r.games == t.games - {t.players[pid]} && r.order == Without(t.order, t.players[pid]))
      && (pid in t.players && t.games[t.players[pid]].status != Waiting ==>
            var gid := t.players[pid];
            r.games == t.games[gid := t.games[gid].(status := Abandoned)] && r.order == t.order)
  {
    if pid in t.players {
      var gid := t.players[pid];
      var r := Remove(t, pid);
      if t.games[gid].status == Waiting {
        forall q | q in r.players ensures r.players[q] != gid {
          assert Participates(t.games[t.players[q]], q);
        }
      } else {
        assert Seats(r.games[gid]) == Seats(t.games[gid]);
      }
    }
  }

  /** Dropping an index entry keeps the registry well formed. */
  lemma UnindexKeeps(t: Tables, pid: PlayerId)
    requires WellFormed(t)
    ensures WellFormed(t.(players := t.players - {pid}))
  {
  }

  /** Once its only player is unindexed, a waiting match can be deleted. */
  lemma DroppedKeeps(t: Tables, pid: PlayerId)
    requires WellFormed(t) && pid in t.players && t.games[t.players[pid]].status == Waiting
    ensures var gid := t.players[pid];
      && (forall p | p in t.players && p != pid :: t.players[p] != gid)
      && WellFormed(Dropped(t.(players := t.players - {pid}), gid))
  {
    RemoveStep(t, pid);
  }

  /** Abandoning a started match keeps the registry well formed. */
  lemma DesertedKeeps(t: Tables, gid: string)
    requires WellFormed(t) && gid in t.games && t.games[gid].status != Waiting
    ensures WellFormed(Deserted(t, gid))
  {
    assert Seats(Deserted(t, gid).games[gid]) == Seats(t.games[gid]);
  }

  /**
   * Resetting fails on an unknown id and on a match still waiting for its
   * second player; otherwise that match restarts at round 1 with both scores
   * and moves cleared, and nothing else changes.
   */
  lemma ResetStep(t: Tables, gid: string)
    requires WellFormed(t)
    ensures var r := ResetIn(t, gid);
      && (r == Err(GameNotFound) <==> gid !in t.games)
      && (r == Err(NoSecondPlayer) <==> Open(t.games, gid))
      && (r.Ok? ==>
            && WellFormed(r.value)
            && r.value.games[gid].status == Playing && r.value.games[gid].round == 1
            && r.value.games[gid].player1.score == 0 && r.value.games[gid].player2.value.score == 0
            && r.value.games[gid].moveHistory == t.games[gid].moveHistory
            && (forall k | k in t.games && k != gid :: r.value.games[k] == t.games[k])
            && r.value.games.Keys == t.games.Keys
            && r.value.order == t.order && r.value.players == t.players)
  {
    if gid in t.games && t.games[gid].player2.Some? {
      RestartedStep(t.games[gid]);
      var r := ResetIn(t, gid);
      assert Seats(r.value.games[gid]) == Seats(t.games[gid]);
    }
  }

  /** The games list has one entry per id of `ks`, in order, counting two players exactly when the second seat is taken. */
  lemma {:induction false} ListingsStep(gm: map<string, GameData>, ks: seq<string>)
    requires forall k | k in ks :: k in gm
    ensures var r := Listings(gm, ks);
      && (forall i | 0 <= i < |r| :: r[i].id == ks[i] && r[i].status == gm[ks[i]].status && r[i].round == gm[ks[i]].round && r[i].createdAt == gm[ks[i]].createdAt)
      && (forall i | 0 <= i < |r| :: r[i].playersCount == (if gm[ks[i]].player2.Some? then 2 else 1))
  {
    if ks != [] {
      ListingsStep(gm, ks[..|ks| - 1]);
    }
  }

  /** One cleanup iteration deletes an expired match, its id in the order and its players' index entries, and nothing else. */
  lemma SweepKeyStep(t: Tables, k: string, now: int)
    requires WellFormed(t)
    ensures var r := SweepKey(t, k, now);
      && WellFormed(r)
      && (k in t.games && Expired(t.games[k], now) ==>
            && r.games == t.games - {k} && r.order == Without(t.order, k)
            && r.players == t.players - Seats(t.games[k]))
      && (!(k in t.games && Expired(t.games[k], now)) ==> r == t)
  {
    if k in t.games && Expired(t.games[k], now) {
      var r := SweepKey(t, k, now);
      forall p | p in r.players ensures r.players[p] in r.games {
        assert Participates(t.games[t.players[p]], p);
      }
    }
  }

  /**
   * What the cleanup iterations at `ks` leave of `t`: the matches not
   * expired among `ks`, unchanged; the surviving ids in their order; the
   * index without exactly the players seated in an expired match, wherever
   * their entry points.
   */
  ghost predicate SweptShape(t: Tables, ks: seq<string>, now: int, r: Tables) {
    && WellFormed(r)
    && r.games == t.games - SweptBy(t.games, ks, now)
    && r.order == Purged(t.order, SweptBy(t.games, ks, now))
    && r.players == t.players - FreedBy(t.games, ks, now)
  }

  /** Deleting two sets of keys one after the other is deleting their union. */
  lemma MinusBoth<K, V>(m: map<K, V>, a: set<K>, b: set<K>)
    ensures m - a - b == m - (a + b)
  {
  }

  /** Deleting no key changes nothing. */
  lemma MinusNone<K, V>(m: map<K, V>)
    ensures m - {} == m
  {
  }

  /** The cleanup iterations keep the registry well formed and leave it in the shape above. */
  lemma {:induction false} SweptStep(t: Tables, ks: seq<string>, now: int)
    requires WellFormed(t)
    ensures SweptShape(t, ks, now, Swept(t, ks, now))
  {
    if ks == [] {
      PurgedNone(t.order);
      MinusNone(t.games);
      MinusNone(t.players);
    } else {
      SweptStep(t, ks[..|ks| - 1], now);
      SweptNext(t, ks, now);
    }
  }

  /** One more cleanup iteration keeps the shape above. */
  lemma SweptNext(t: Tables, ks: seq<string>, now: int)
    requires WellFormed(t) && ks != []
    requires SweptShape(t, ks[..|ks| - 1], now, Swept(t, ks[..|ks| - 1], now))
    ensures SweptShape(t, ks, now, Swept(t, ks, now))
  {
    var k := ks[|ks| - 1];
    var prev := Swept(t, ks[..|ks| - 1], now);
    if k in prev.games && Expired(prev.games[k], now) {
      SweptExpired(t, ks, now);
    } else {
      SweptKept(t, ks, now);
    }
  }

  lemma SweptExpired(t: Tables, ks: seq<string>, now: int)
    requires WellFormed(t) && ks != []
    requires var prev := Swept(t, ks[..|ks| - 1], now);
      && SweptShape(t, ks[..|ks| - 1], now, prev)
      && ks[|ks| - 1] in prev.games && Expired(prev.games[ks[|ks| - 1]], now)
    ensures SweptShape(t, ks, now, Swept(t, ks, now))
  {
    var k := ks[|ks| - 1];
    var ks' := ks[..|ks| - 1];
    var prev := Swept(t, ks', now);
    assert Swept(t, ks, now) == SweepKey(prev, k, now);
    assert prev.games[k] == t.games[k];
    SweepKeyStep(prev, k, now);
    SweptByExpired(t.games, ks, now);
    PurgedMore(t.order, SweptBy(t.games, ks', now), k);
    MinusBoth(t.games, SweptBy(t.games, ks', now), {k});
    MinusBoth(t.players, FreedBy(t.games, ks', now), Seats(t.games[k]));
  }

  /** An expired id not swept before adds itself to what is swept and its players to what is freed. */
  lemma SweptByExpired(gm: map<string, GameData>, ks: seq<string>, now: int)
    requires ks != []
    requires var k := ks[|ks| - 1];
      k in gm && Expired(gm[k], now)
    ensures var k, ks' := ks[|ks| - 1], ks[..|ks| - 1];
      && SweptBy(gm, ks, now) == SweptBy(gm, ks', now) + {k}
      && FreedBy(gm, ks, now) == FreedBy(gm, ks', now) + Seats(gm[k])
  {
  }

  lemma SweptKept(t: Tables, ks: seq<string>, now: int)
    requires WellFormed(t) && ks != []
    requires var prev := Swept(t, ks[..|ks| - 1], now);
      && SweptShape(t, ks[..|ks| - 1], now, prev)
      && !(ks[|ks| - 1] in prev.games && Expired(prev.games[ks[|ks| - 1]], now))
    ensures SweptShape(t, ks, now, Swept(t, ks, now))
  {
    var k := ks[|ks| - 1];
    assert Swept(t, ks, now) == Swept(t, ks[..|ks| - 1], now);
    assert k in t.games && Expired(t.games[k], now) ==> k in SweptBy(t.games, ks[..|ks| - 1], now);
    SweptByKept(t.games, ks, now);
  }

  /** An id that is not expired, or was already swept earlier in `ks`, adds nothing to what is swept and freed. */
  lemma SweptByKept(gm: map<string, GameData>, ks: seq<string>, now: int)
    requires ks != []
    requires var k := ks[|ks| - 1];
      k in gm && Expired(gm[k], now) ==> k in SweptBy(gm, ks[..|ks| - 1], now)
    ensures SweptBy(gm, ks, now) == SweptBy(gm, ks[..|ks| - 1], now)
    ensures FreedBy(gm, ks, now) == FreedBy(gm, ks[..|ks| - 1], now)
  {
    var k := ks[|ks| - 1];
    if k in gm && Expired(gm[k], now) {
      FreedCovers(gm, ks[..|ks| - 1], k, now);
    }
  }

  /** The players of an expired match among `ks` are all freed. */
  lemma {:induction false} FreedCovers(gm: map<string, GameData>, ks: seq<string>, k: string, now: int)
    requires k in ks && k in gm && Expired(gm[k], now)
    ensures Seats(gm[k]) <= FreedBy(gm, ks, now)
  {
    var last := ks[|ks| - 1];
    if last != k {
      assert k in ks[..|ks| - 1] by {
        var i :| 0 <= i < |ks| && ks[i] == k;
        assert ks[..|ks| - 1][i] == k;
      }
      FreedCovers(gm, ks[..|ks| - 1], k, now);
    }
  }

  lemma {:induction false} PurgedNone(s: seq<string>)
    ensures Purged(s, {}) == s
  {
    if s != [] {
      PurgedNone(s[1..]);
      assert s == [s[0]] + s[1..];
    }
  }

  /**
   * `cleanupFinishedGames` deletes exactly the expired matches and leaves
   * every other match (all waiting and playing ones among them) as it was,
   * in its order; the index loses exactly the players seated in an expired
   * match; the registry stays well formed.
   */
  lemma SweepStep(t: Tables, now: int)
    requires WellFormed(t)
    ensures var r := Sweep(t, now);
      && WellFormed(r)
      && (forall k :: k in r.games <==> k in t.games && !Expired(t.games[k], now))
      && (forall k | k in r.games :: r.games[k] == t.games[k])
      && (forall k | k in t.games && (t.games[k].status == Waiting || t.games[k].status == Playing) :: k in r.games)
      && r.order == Purged(t.order, SweptBy(t.games, t.order, now))
      && (forall p :: p in r.players <==>
            p in t.players && forall k | k in t.games && Expired(t.games[k], now) :: !Participates(t.games[k], p))
      && (forall p | p in r.players :: r.players[p] == t.players[p])
  {
    SweptStep(t, t.order, now);
    FreedByMeaning(t.games, t.order, now);
  }

  // ---------------------------------------------------------------------------
  // The profiles as a value
  // ---------------------------------------------------------------------------

  /** `getOrCreatePlayer`: a profile is made only for an unknown id; `avatar` absent means the default one. */
  function Enrolled(ps: map<PlayerId, PlayerData>, pid: PlayerId, name: string, avatar: Option<string>, now: int): map<PlayerId, PlayerData> {
    if pid in ps then ps
    else ps[pid := Newcomer(pid, name, if avatar.Some? then avatar.value else DefaultAvatar, now)]
  }

  /** `updatePlayerAvatar`: only a known profile changes. */
  function Reavatared(ps: map<PlayerId, PlayerData>, pid: PlayerId, avatar: string): map<PlayerId, PlayerData> {
    if pid in ps then ps[pid := ps[pid].(avatar := avatar)] else ps
  }

  /** Recording a match summary in the profile of `pid`, if there is one. */
  function Credit(ps: map<PlayerId, PlayerData>, pid: PlayerId, h: GameSummary, now: int): (r: map<PlayerId, PlayerData>)
    requires h.player2.Some? && forall q | q in ps :: Tallied(ps[q])
    ensures r.Keys == ps.Keys
    ensures forall q | q in r :: Tallied(r[q])
    ensures forall q | q in ps && q != pid :: r[q] == ps[q]
    ensures pid in ps ==> r[pid] == AddResult(ps[pid], h, now)
    ensures pid !in ps ==> r == ps
  {
    if pid in ps then
      AddResultStep(ps[pid], h, now);
      ps[pid := AddResult(ps[pid], h, now)]
    else ps
  }

  /** Crediting two ids in turn: each named profile is credited once, or twice when the ids coincide. */
  lemma CreditTwice(ps: map<PlayerId, PlayerData>, p1: PlayerId, p2: PlayerId, h: GameSummary, now: int)
    requires h.player2.Some? && forall q | q in ps :: Tallied(ps[q])
    ensures var r := Credit(Credit(ps, p1, h, now), p2, h, now);
      && (forall q | q in ps && q != p1 && q != p2 :: r[q] == ps[q])
      && (p1 != p2 ==> forall q | q in ps && (q == p1 || q == p2) :: r[q] == AddResult(ps[q], h, now))
      && (p1 == p2 && p1 in ps ==> r[p1] == AddResult(AddResult(ps[p1], h, now), h, now))
  {
    var once := Credit(ps, p1, h, now);
    assert p1 in ps ==> once[p1] == AddResult(ps[p1], h, now);
  }

  /**
   * `saveGameToHistory`: a finished match with both seats taken is recorded
   * once in the profile of each of its players that has one; no other
   * profile, and no profile at all for any other match, changes.
   */
  function SaveGame(ps: map<PlayerId, PlayerData>, g: GameData, now: int): (r: map<PlayerId, PlayerData>)
    requires forall q | q in ps :: Tallied(ps[q])
    ensures r.Keys == ps.Keys
    ensures forall q | q in r :: Tallied(r[q])
    ensures !(g.status == Finished && g.player2.Some?) ==> r == ps
    ensures forall q | q in ps && !Participates(g, q) :: r[q] == ps[q]
    ensures g.status == Finished && g.player2.Some? && g.player1.id != g.player2.value.id ==>
              (forall q | q in ps && Participates(g, q) :: r[q] == AddResult(ps[q], Summary(g), now))
    ensures g.status == Finished && g.player2.Some? && g.player1.id == g.player2.value.id && g.player1.id in ps ==>
              var h, q := Summary(g), g.player1.id;
              r[q] == AddResult(AddResult(ps[q], h, now), h, now)
  {
    if g.status == Finished && g.player2.Some? then
      var h, p1, p2 := Summary(g), g.player1.id, g.player2.value.id;
      CreditTwice(ps, p1, p2, h, now);
      Credit(Credit(ps, p1, h, now), p2, h, now)
    else ps
  }

  /**
   * Saving a finished match between two different players credits the
   * winner with a win and the other with a loss, or both with a tie; each
   * plays one more match.
   */
  lemma SaveGameVerdict(ps: map<PlayerId, PlayerData>, g: GameData, now: int)
    requires forall q | q in ps :: Tallied(ps[q])
    requires g.status == Finished && g.player2.Some?
    requires var p1, p2 := g.player1.id, g.player2.value.id;
      p1 != p2 && p1 in ps && p2 in ps && ps[p1].id == p1 && ps[p2].id == p2
    ensures var r, p1, p2 := SaveGame(ps, g, now), g.player1.id, g.player2.value.id;
      && r[p1].stats.gamesPlayed == ps[p1].stats.gamesPlayed + 1
      && r[p2].stats.gamesPlayed == ps[p2].stats.gamesPlayed + 1
      && (g.winner == Some(Player1) ==>
            r[p1].stats.wins == ps[p1].stats.wins + 1 && r[p2].stats.losses == ps[p2].stats.losses + 1)
      && (g.winner == Some(Player2) ==>
            r[p2].stats.wins == ps[p2].stats.wins + 1 && r[p1].stats.losses == ps[p1].stats.losses + 1)
      && (g.winner == Some(Tie) ==>
            r[p1].stats.ties == ps[p1].stats.ties + 1 && r[p2].stats.ties == ps[p2].stats.ties + 1)
  {
    var h, p1, p2 := Summary(g), g.player1.id, g.player2.value.id;
    AddResultStep(ps[p1], h, now);
    AddResultStep(ps[p2], h, now);
  }

  /** The profiles after the cleanup iterations at `ks` have saved the expired matches of `gm`, in the order of `ks`. */
  function SaveAll(ps: map<PlayerId, PlayerData>, gm: map<string, GameData>, ks: seq<string>, now: int): (r: map<PlayerId, PlayerData>)
    requires forall q | q in ps :: Tallied(ps[q])
    ensures r.Keys == ps.Keys
    ensures forall q | q in r :: Tallied(r[q])
    ensures forall q | q in ps && q !in FreedBy(gm, ks, now) :: r[q] == ps[q]
  {
    if ks == [] then ps
    else
      var k := ks[|ks| - 1];
      var saved := SaveAll(ps, gm, ks[..|ks| - 1], now);
      if k in gm && Expired(gm[k], now) then SaveGame(saved, gm[k], now) else saved
  }

  /** A profile, once made, is kept: asking again returns it whatever name and avatar are passed. */
  lemma EnrolledStep(ps: map<PlayerId, PlayerData>, pid: PlayerId, name: string, avatar: Option<string>, now: int,
                     name': string, avatar': Option<string>, later: int)
    requires forall q | q in ps :: Tallied(ps[q])
    ensures var r := Enrolled(ps, pid, name, avatar, now);
      && r.Keys == ps.Keys + {pid}
      && (forall q | q in r :: Tallied(r[q]))
      && (forall q | q in ps :: r[q] == ps[q])
      && (pid !in ps ==> r[pid].stats == Stats(0, 0, 0, 0, 0, 0, 0) && r[pid].gameHistory == []
                         && r[pid].name == name && r[pid].avatar == (if avatar.Some? then avatar.value else DefaultAvatar))
      && Enrolled(r, pid, name', avatar', later) == r
  {
    NewcomerStep(pid, name, if avatar.Some? then avatar.value else DefaultAvatar, now);
  }

  /** A changed avatar is the one `getPlayerAvatar` reports afterwards; nothing else changes. */
  lemma ReavataredStep(ps: map<PlayerId, PlayerData>, pid: PlayerId, avatar: string)
    requires forall q | q in ps :: Tallied(ps[q])
    ensures var r := Reavatared(ps, pid, avatar);
      && r.Keys == ps.Keys
      && (forall q | q in r :: Tallied(r[q]))
      && AvatarOf(r, pid) == (if pid in ps then avatar else DefaultAvatar)
      && (forall q | q in ps && q != pid :: r[q] == ps[q])
      && (pid in ps ==> r[pid].stats == ps[pid].stats && r[pid].gameHistory == ps[pid].gameHistory)
  {
  }

  /** The quick-join policy: join the first waiting match in insertion order, or create one under `gid`. */
  function Quick(t: Tables, ps: map<PlayerId, PlayerData>, pid: PlayerId, name: string, avatar: string, gid: string, now: int): Tables {
    var i := FirstOpen(t.games, t.order);
    var a := AvatarFor(ps, pid, avatar);
    if i < |t.order| then
      match Join(t, t.order[i], pid, name, a)
      case Ok(u) => u
      case Err(_) => t
    else Create(t, gid, pid, name, a, now)
  }

  /**
   * Quick-join always seats the player and indexes them to the match: the
   * first waiting match in insertion order, which then starts, or else a new
   * waiting match under the fresh id.
   */
  lemma QuickStep(t: Tables, ps: map<PlayerId, PlayerData>, pid: PlayerId, name: string, avatar: string, gid: string, now: int)
    requires WellFormed(t) && gid != "" && gid !in t.games
    ensures var r, i := Quick(t, ps, pid, name, avatar, gid, now), FirstOpen(t.games, t.order);
      && WellFormed(r)
      && pid in r.players && Participates(r.games[r.players[pid]], pid)
      && (i < |t.order| ==> r.players[pid] == t.order[i] && r.games[t.order[i]].status == Playing && r.games.Keys == t.games.Keys)
      && (i == |t.order| ==> r.players[pid] == gid && r.games[gid].status == Waiting && r.games.Keys == t.games.Keys + {gid})
  {
    var i := FirstOpen(t.games, t.order);
    var a := AvatarFor(ps, pid, avatar);
    if i < |t.order| {
      JoinStep(t, t.order[i], pid, name, a);
    } else {
      CreateStep(t, gid, pid, name, a, now);
    }
  }

  /**
   * One turn of the cleanup loop over the insertion order: the id it visits
   * is still stored, unchanged, and the next state is one `SweepKey` on.
   */
  lemma SweepTurn(t: Tables, i: nat, now: int)
    requires WellFormed(t) && i < |t.order|
    ensures var k, r := t.order[i], Swept(t, t.order[..i], now);
      && WellFormed(r) && k in r.games && r.games[k] == t.games[k]
      && Swept(t, t.order[..i + 1], now) == SweepKey(r, k, now)
  {
    var k, ks := t.order[i], t.order[..i];
    var r := Swept(t, ks, now);
    SweptStep(t, ks, now);
    assert k !in ks by {
      forall j | 0 <= j < i ensures ks[j] != k {
        assert t.order[j] != t.order[i];
      }
    }
    assert k !in SweptBy(t.games, ks, now);
    assert k in r.games && r.games[k] == t.games[k];
    PrefixGrows(t.order, i);
    assert Swept(t, t.order[..i + 1], now) == SweepKey(r, k, now);
  }

  /** The profile side of one turn of the cleanup loop. */
  lemma SaveTurn(ps: map<PlayerId, PlayerData>, gm: map<string, GameData>, ks: seq<string>, i: nat, now: int)
    requires (forall q | q in ps :: Tallied(ps[q])) && i < |ks|
    ensures var k, saved := ks[i], SaveAll(ps, gm, ks[..i], now);
      SaveAll(ps, gm, ks[..i + 1], now) == if k in gm && Expired(gm[k], now) then SaveGame(saved, gm[k], now) else saved
  {
    PrefixGrows(ks, i);
  }

  /** Growing a prefix by one element keeps the shorter prefix inside it. */
  lemma PrefixGrows<T>(s: seq<T>, i: nat)
    requires i < |s|
    ensures s[..i + 1][..i] == s[..i] && s[..i + 1][i] == s[i]
  {
  }

  /** Storing a value again under its own key changes nothing. */
  lemma UpdateSame<K, V>(m: map<K, V>, k: K)
    requires k in m
    ensures m[k := m[k]] == m
  {
  }

  // ---------------------------------------------------------------------------
  // The controller object
  // ---------------------------------------------------------------------------

  class GameController {
    var games: map<string, Game>
    /** The insertion order of `games`. */
    var order: seq<string>
    var players: map<PlayerId, string>
    var profiles: map<PlayerId, Player>

    ghost function GameMap(): map<string, GameData>
      reads this, games.Values
    {
      map k | k in games :: games[k].Data()
    }

    ghost function State(): Tables
      reads this, games.Values
    {
      Tables(GameMap(), order, players)
    }

    ghost function ProfileMap(): map<PlayerId, PlayerData>
      reads this, profiles.Values
    {
      map q | q in profiles :: profiles[q].Data()
    }

    /** Every profile sits under its own id and is tallied. */
    ghost predicate ProfilesValid()
      reads this, profiles.Values
    {
      forall q | q in profiles :: profiles[q].id == q && profiles[q].Valid()
    }

    ghost predicate Valid()
      reads this, games.Values, profiles.Values
    {
      WellFormed(State()) && ProfilesValid()
    }

    /** Every stored match sits under its own id and is consistent. */
    lemma KeyedGames()
      requires Valid()
      ensures forall k | k in games :: games[k].id == k && games[k].Valid()
    {
      forall k | k in games ensures games[k].id == k && games[k].Valid() {
        assert GameMap()[k] == games[k].Data();
      }
    }

    /** Every stored match sits under its own id (the part of `KeyedGames` the methods need, without each match's invariant). */
    lemma KeyedIds()
      requires Valid()
      ensures forall k | k in games :: games[k].id == k
    {
      forall k | k in games ensures games[k].id == k {
        assert GameMap()[k] == games[k].Data();
      }
    }

    // Frame facts for the controller's methods: what the two views of the
    // object maps become when only some of the objects have changed.

    twostate lemma GameMapAfter(gid: string)
      requires gid in games && games == old(games)
      requires forall k | k in games && k != gid :: unchanged(games[k])
      ensures GameMap() == old(GameMap())[gid := games[gid].Data()]
    {
    }

    twostate lemma GameMapAdded(gid: string)
      requires gid in games && gid !in old(games) && games == old(games)[gid := games[gid]]
      requires forall k | k in old(games) :: unchanged(games[k])
      ensures GameMap() == old(GameMap())[gid := games[gid].Data()]
    {
    }

    twostate lemma GameMapSame()
      requires games == old(games) && unchanged(games.Values)
      ensures GameMap() == old(GameMap())
    {
    }

    twostate lemma GameMapRemoved(gid: string)
      requires games == old(games) - {gid}
      requires forall k | k in games :: unchanged(games[k])
      ensures GameMap() == old(GameMap()) - {gid}
    {
    }

    twostate lemma ProfileMapAfter(pid: PlayerId)
      requires pid in profiles && profiles == old(profiles)
      requires forall q | q in profiles && q != pid :: unchanged(profiles[q])
      ensures ProfileMap() == old(ProfileMap())[pid := profiles[pid].Data()]
    {
    }

    twostate lemma ProfileMapAdded(pid: PlayerId)
      requires pid in profiles && pid !in old(profiles) && profiles == old(profiles)[pid := profiles[pid]]
      requires forall q | q in old(profiles) :: unchanged(profiles[q])
      ensures ProfileMap() == old(ProfileMap())[pid := profiles[pid].Data()]
    {
    }

    twostate lemma ProfilesAfter()
      requires profiles == old(profiles)
      requires forall q | q in profiles :: unchanged(profiles[q])
      ensures ProfileMap() == old(ProfileMap())
      ensures old(ProfilesValid()) ==> ProfilesValid()
    {
    }

    constructor ()
      ensures Valid()
      ensures State() == Tables(map[], [], map[]) && ProfileMap() == map[]
    {
      games, order, players, profiles := map[], [], map[], map[];
    }

    /** `getPlayerAvatar`. */
    function GetPlayerAvatar(playerId: PlayerId): (a: string)
      reads this, profiles.Values
      ensures a == AvatarOf(ProfileMap(), playerId)
    {
      if playerId in profiles then profiles[playerId].avatar else DefaultAvatar
    }

    /** `createGame`, with `freshId` standing for the random id the source draws. */
    method CreateGame(playerId: PlayerId, playerName: string, playerAvatar: string, freshId: string, now: int) returns (game: Game)
      requires Valid() && freshId != "" && freshId !in games
      modifies this
      ensures Valid() && fresh(game) && freshId in games && game == games[freshId]
      ensures State() == Create(old(State()), freshId, playerId, playerName, AvatarFor(old(ProfileMap()), playerId, playerAvatar), now)
      ensures ProfileMap() == old(ProfileMap())
    {
      var avatar := if playerAvatar != "" then playerAvatar else GetPlayerAvatar(playerId);
      ghost var t := State();
      game := new Game(freshId, playerId, playerName, avatar, now);
      games, order, players := games[freshId := game], order + [freshId], players[playerId := freshId];
      GameMapAdded(freshId);
      ProfilesAfter();
      assert State() == Create(t, freshId, playerId, playerName, avatar, now);
      CreateStep(t, freshId, playerId, playerName, avatar, now);
    }

    /** `joinGame`. */
    method JoinGame(gameId: string, playerId: PlayerId, playerName: string, playerAvatar: string) returns (r: Result<Game, RegistryError>)
      requires Valid()
      modifies this, games.Values
      ensures Valid()
      ensures var j := Join(old(State()), gameId, playerId, playerName, AvatarFor(old(ProfileMap()), playerId, playerAvatar));
        && (r.Ok? <==> j.Ok?)
        && (r.Err? ==> r.error == j.error && State() == old(State()))
        && (r.Ok? ==> State() == j.value && r.value == games[gameId])
      ensures games == old(games) && ProfileMap() == old(ProfileMap())
    {
      if gameId !in games {
        return Err(GameNotFound);
      }
      var game := games[gameId];
      if game.status != Waiting {
        return Err(NotJoinable);
      }
      var avatar := if playerAvatar != "" then playerAvatar else GetPlayerAvatar(playerId);
      ghost var t := State();
      KeyedIds();
      assert GameMap()[gameId] == game.Data();
      assert forall q | q in profiles :: (profiles[q] as object) != game;
      assert forall k | k in games && k != gameId :: games[k] != game;
      assert (this as object) != game;
      assert forall k | k in games :: (games[k] as object) != this;
      assert forall q | q in profiles :: (profiles[q] as object) != this;
      var out := game.AddPlayer2(playerId, playerName, avatar);
      match out
      case Fail(e) =>
        assert false;
        r := Err(Rejected(e));
      case Pass =>
        players := players[playerId := gameId];
        GameMapAfter(gameId);
        ProfilesAfter();
        JoinStep(t, gameId, playerId, playerName, avatar);
        assert State() == t.(games := t.games[gameId := game.Data()], players := t.players[playerId := gameId]);
        r := Ok(game);
    }

    /** `findAvailableGame`: the first waiting match in insertion order, if any. */
    method FindAvailableGame() returns (r: Option<Game>)
      requires Valid()
      ensures var i := FirstOpen(GameMap(), order);
        && (r.None? <==> i == |order|)
        && (r.Some? ==> i < |order| && r.value == games[order[i]])
      ensures r.Some? ==> r.value.status == Waiting && r.value.id in games
      ensures r.None? ==> forall k | k in games :: games[k].status != Waiting
    {
      ghost var gm := GameMap();
      KeyedIds();
      var i := 0;
      while i < |order|
        invariant 0 <= i <= |order|
        invariant forall j | 0 <= j < i :: !Open(gm, order[j])
      {
        assert order[i] in gm;
        var game := games[order[i]];
        assert gm[order[i]] == game.Data();
        if game.status == Waiting {
          FirstOpenAt(gm, order, i);
          return Some(game);
        }
        i := i + 1;
      }
      FirstOpenAt(gm, order, i);
      NoneOpen(State());
      forall k | k in games ensures games[k].status != Waiting {
        assert gm[k] == games[k].Data();
      }
      return None;
    }

    /** The controller's `makeMove`. */
    method MakeMove(playerId: PlayerId, choice: string, now: int) returns (r: Result<Game, RegistryError>)
      requires Valid()
      modifies games.Values
      ensures Valid()
      ensures var m := Move(old(State()), playerId, choice, now);
        && (r.Ok? <==> m.Ok?)
        && (r.Err? ==> r.error == m.error && State() == old(State()))
        && (r.Ok? ==> State() == m.value && r.value == games[players[playerId]])
      ensures ProfileMap() == old(ProfileMap())
    {
      if playerId !in players || players[playerId] == "" {
        return Err(NotInAnyGame);
      }
      var gameId := players[playerId];
      if gameId !in games {
        return Err(GameNotFound);
      }
      var game := games[gameId];
      ghost var t := State();
      KeyedIds();
      assert GameMap()[gameId] == game.Data();
      assert forall q | q in profiles :: (profiles[q] as object) != game;
      assert forall k | k in games && k != gameId :: games[k] != game;
      assert (this as object) != game;
      var out := game.MakeMove(playerId, choice, now);
      assert unchanged(this);
      GameMapAfter(gameId);
      ProfilesAfter();
      MoveStep(t, playerId, choice, now);
      match out
      case Fail(e) =>
        assert game.Data() == t.games[gameId];
        UpdateSame(t.games, gameId);
        r := Err(Rejected(e));
      case Pass =>
        r := Ok(game);
    }

    /** `getGame`. */
    function GetGame(gameId: string): (r: Option<Game>)
      requires Valid()
      reads this, games.Values, profiles.Values
      ensures r.Some? <==> gameId in games
      ensures r.Some? ==> r.value.id == gameId && r.value.Valid()
    {
      KeyedGames();
      if gameId in games then Some(games[gameId]) else None
    }

    /** `getPlayerGame`: the match the index names, which seats the player. */
    function GetPlayerGame(playerId: PlayerId): (r: Option<Game>)
      requires Valid()
      reads this, games.Values, profiles.Values
      ensures r.Some? <==> playerId in players
      ensures r.Some? ==> r.value.id == players[playerId] && Participates(r.value.Data(), playerId)
    {
      if playerId !in players || players[playerId] == "" then None
      else
        assert players[playerId] in GameMap();
        Some(games[players[playerId]])
    }

    /** `removePlayerFromGame`. */
    method RemovePlayerFromGame(playerId: PlayerId)
      requires Valid()
      modifies this, games.Values
      ensures Valid()
      ensures State() == Remove(old(State()), playerId)
      ensures ProfileMap() == old(ProfileMap())
    {
      ghost var t := State();
      if playerId in players && players[playerId] != "" {
        var gameId := players[playerId];
        ghost var waiting := gameId in games && games[gameId].status == Waiting;
        if waiting {
          assert GameMap()[gameId] == games[gameId].Data();
          DroppedKeeps(t, playerId);
        }
        Unindex(playerId);
        if gameId in games {
          var game := games[gameId];
          if game.status == Waiting {
            DropWaiting(gameId);
          } else {
            Desert(gameId);
          }
        }
      }
    }

    /** Drops the index entry of `playerId`. */
    method Unindex(playerId: PlayerId)
      requires Valid()
      modifies this
      ensures Valid()
      ensures State() == old(State()).(players := old(players) - {playerId})
      ensures games == old(games) && ProfileMap() == old(ProfileMap())
    {
      ghost var t := State();
      assert forall k | k in games :: (games[k] as object) != this;
      assert forall q | q in profiles :: (profiles[q] as object) != this;
      players := players - {playerId};
      GameMapSame();
      ProfilesAfter();
      UnindexKeeps(t, playerId);
    }

    /** Deletes a match nobody is indexed to, with its insertion-order entry. */
    method DropWaiting(gameId: string)
      requires Valid() && gameId in games
      requires forall p | p in players :: players[p] != gameId
      modifies this
      ensures Valid()
      ensures State() == Dropped(old(State()), gameId)
      ensures ProfileMap() == old(ProfileMap())
    {
      ghost var t := State();
      assert forall k | k in games :: (games[k] as object) != this;
      assert forall q | q in profiles :: (profiles[q] as object) != this;
      games := games - {gameId};
      order := Without(order, gameId);
      GameMapRemoved(gameId);
      ProfilesAfter();
      assert State() == Dropped(t, gameId);
      assert WellFormed(Dropped(t, gameId)) by {
        assert forall p | p in t.players :: t.players[p] != gameId;
      }
    }

    /** Marks a started match abandoned; the source assigns the status field directly. */
    method Desert(gameId: string)
      requires Valid() && gameId in games && games[gameId].status != Waiting
      modifies games[gameId]
      ensures Valid()
      ensures State() == Deserted(old(State()), gameId)
      ensures ProfileMap() == old(ProfileMap())
    {
      var game := games[gameId];
      ghost var t := State();
      KeyedIds();
      assert GameMap()[gameId] == game.Data();
      assert forall q | q in profiles :: (profiles[q] as object) != game;
      assert forall k | k in games && k != gameId :: games[k] != game;
      assert (this as object) != game;
      game.status := Abandoned;
      GameMapAfter(gameId);
      ProfilesAfter();
      assert State() == Deserted(t, gameId);
      DesertedKeeps(t, gameId);
    }

    /** `resetGame`. */
    method ResetGame(gameId: string) returns (r: Result<Game, RegistryError>)
      requires Valid()
      modifies games.Values
      ensures Valid()
      ensures var x := ResetIn(old(State()), gameId);
        && (r.Ok? <==> x.Ok?)
        && (r.Err? ==> r.error == x.error && State() == old(State()))
        && (r.Ok? ==> State() == x.value && r.value == games[gameId])
      ensures ProfileMap() == old(ProfileMap())
    {
      if gameId !in games {
        return Err(GameNotFound);
      }
      var game := games[gameId];
      if game.player2.None? {
        return Err(NoSecondPlayer);
      }
      ghost var t := State();
      KeyedIds();
      assert GameMap()[gameId] == game.Data();
      assert forall q | q in profiles :: (profiles[q] as object) != game;
      assert forall k | k in games && k != gameId :: games[k] != game;
      assert (this as object) != game;
      game.Reset();
      assert unchanged(this);
      GameMapAfter(gameId);
      ProfilesAfter();
      ResetStep(t, gameId);
      return Ok(game);
    }

    /** `getGamesList`: one entry per stored match, in insertion order. */
    method GetGamesList() returns (list: seq<GameListing>)
      requires Valid()
      ensures list == Listings(GameMap(), order)
    {
      list := [];
      var i := 0;
      while i < |order|
        invariant 0 <= i <= |order|
        invariant list == Listings(GameMap(), order[..i])
      {
        var gameId := order[i];
        assert gameId in GameMap();
        var game := games[gameId];
        list := list + [GameListing(gameId, game.status, if game.player2.Some? then 2 else 1, game.round, game.createdAt)];
        assert order[..i + 1][..i] == order[..i];
        i := i + 1;
      }
      assert order[..i] == order;
    }

    /** `saveGameToHistory`. */
    method SaveGameToHistory(game: Game, now: int)
      requires ProfilesValid()
      modifies profiles.Values
      ensures ProfilesValid()
      ensures ProfileMap() == SaveGame(old(ProfileMap()), game.Data(), now)
      ensures State() == old(State())
    {
      assert forall k | k in games :: (games[k] as object) !in profiles.Values;
      assert (this as object) !in profiles.Values;
      if game.status == Finished && game.player2.Some? {
        var h := Summary(game.Data());
        CreditProfile(game.player1.id, h, now);
        CreditProfile(game.player2.value.id, h, now);
      }
      GameMapSame();
    }

    /** `playerProfiles.get(playerId)`, then `addGameResult` on it when there is one. */
    method CreditProfile(playerId: PlayerId, h: GameSummary, now: int)
      requires ProfilesValid() && h.player2.Some?
      modifies profiles.Values
      ensures ProfilesValid()
      ensures ProfileMap() == Credit(old(ProfileMap()), playerId, h, now)
    {
      if playerId in profiles {
        var player := profiles[playerId];
        assert forall q | q in profiles && q != playerId :: profiles[q] != player;
        assert (this as object) != player;
        player.AddGameResult(h, now);
        ProfileMapAfter(playerId);
      }
    }

    /** `cleanupFinishedGames` at time `now`. */
    method CleanupFinishedGames(now: int)
      requires Valid()
      modifies this, profiles.Values
      ensures Valid()
      ensures State() == Sweep(old(State()), now)
      ensures ProfileMap() == SaveAll(old(ProfileMap()), old(GameMap()), old(order), now)
    {
      ghost var t0 := State();
      ghost var ps0 := ProfileMap();
      var keys := order;
      var i: nat := 0;
      while i < |keys|
        invariant i <= |keys| && keys == t0.order
        invariant Valid() && profiles == old(profiles)
        invariant State() == Swept(t0, keys[..i], now)
        invariant ProfileMap() == SaveAll(ps0, t0.games, keys[..i], now)
      {
        SweepTurnAt(t0, ps0, keys, i, now);
        i := i + 1;
      }
      assert keys[..i] == keys;
    }

    /** The cleanup loop's turn at `keys[i]`, stated against the loop's invariants. */
    method SweepTurnAt(ghost t0: Tables, ghost ps0: map<PlayerId, PlayerData>, keys: seq<string>, i: nat, now: int)
      requires WellFormed(t0) && (forall q | q in ps0 :: Tallied(ps0[q])) && keys == t0.order && i < |keys|
      requires Valid() && State() == Swept(t0, keys[..i], now) && ProfileMap() == SaveAll(ps0, t0.games, keys[..i], now)
      modifies this, profiles.Values
      ensures Valid() && profiles == old(profiles)
      ensures State() == Swept(t0, keys[..i + 1], now)
      ensures ProfileMap() == SaveAll(ps0, t0.games, keys[..i + 1], now)
    {
      SweepTurn(t0, i, now);
      SaveTurn(ps0, t0.games, keys, i, now);
      SweepOne(keys[i], now);
    }

    /** One iteration of the cleanup loop, at the stored match `gameId`. */
    method SweepOne(gameId: string, now: int)
      requires Valid() && gameId in games
      modifies this, profiles.Values
      ensures Valid() && profiles == old(profiles)
      ensures State() == SweepKey(old(State()), gameId, now)
      ensures var g := old(GameMap())[gameId];
        ProfileMap() == if Expired(g, now) then SaveGame(old(ProfileMap()), g, now) else old(ProfileMap())
    {
      var game := games[gameId];
      assert GameMap()[gameId] == game.Data();
      if (game.status == Finished || game.status == Abandoned) && now - game.createdAt > MaxAge {
        if game.status == Finished {
          SaveGameToHistory(game, now);
        }
        Discard(gameId, now);
      }
    }

    /** Deletes an expired match, its insertion-order entry and the index entries of its seats. */
    method Discard(gameId: string, now: int)
      requires Valid() && gameId in games && Expired(GameMap()[gameId], now)
      modifies this
      ensures Valid() && profiles == old(profiles)
      ensures State() == SweepKey(old(State()), gameId, now)
      ensures ProfileMap() == old(ProfileMap())
    {
      ghost var t := State();
      var game := games[gameId];
      ghost var g := game.Data();
      assert t.games[gameId] == g;
      assert forall k | k in games :: (games[k] as object) != this;
      assert forall q | q in profiles :: (profiles[q] as object) != this;
      UnseatBoth(players, g);
      games := games - {gameId};
      order := Without(order, gameId);
      players := players - {game.player1.id};
      if game.player2.Some? {
        players := players - {game.player2.value.id};
      }
      GameMapRemoved(gameId);
      ProfilesAfter();
      SweepKeyStep(t, gameId, now);
    }

    /** `getOrCreatePlayer`; `avatar` absent stands for the default parameter. */
    method GetOrCreatePlayer(playerId: PlayerId, playerName: string, avatar: Option<string>, now: int) returns (player: Player)
      requires Valid()
      modifies this
      ensures Valid()
      ensures ProfileMap() == Enrolled(old(ProfileMap()), playerId, playerName, avatar, now)
      ensures playerId in profiles && player == profiles[playerId]
      ensures playerId in old(profiles) ==> player == old(profiles[playerId])
      ensures State() == old(State())
    {
      assert forall k | k in games :: (games[k] as object) != this;
      assert forall q | q in profiles :: (profiles[q] as object) != this;
      if playerId !in profiles {
        var newcomer := new Player(playerId, playerName, if avatar.Some? then avatar.value else DefaultAvatar, now);
        profiles := profiles[playerId := newcomer];
        ProfileMapAdded(playerId);
      }
      GameMapSame();
      player := profiles[playerId];
    }

    /** `updatePlayerAvatar`. */
    method UpdatePlayerAvatar(playerId: PlayerId, avatar: string) returns (r: Option<Player>)
      requires Valid()
      modifies profiles.Values
      ensures Valid()
      ensures ProfileMap() == Reavatared(old(ProfileMap()), playerId, avatar)
      ensures r.Some? <==> playerId in profiles
      ensures r.Some? ==> r.value == profiles[playerId]
      ensures State() == old(State())
    {
      if playerId in profiles {
        var player := profiles[playerId];
        assert forall k | k in games :: (games[k] as object) != player;
        assert forall q | q in profiles && q != playerId :: profiles[q] != player;
        assert (this as object) != player;
        player.UpdateAvatar(avatar);
        ProfileMapAfter(playerId);
        GameMapSame();
        return Some(player);
      }
      return None;
    }

    /** `getPlayerProfile`. */
    function GetPlayerProfile(playerId: PlayerId): (r: Option<ProfileView>)
      requires ProfilesValid()
      reads this, profiles.Values
      ensures r.Some? <==> playerId in profiles
      ensures r.Some? ==> r.value.id == playerId && r.value.stats.winRate <= 100
      ensures r.Some? ==> var p := profiles[playerId];
        (r.value.name, r.value.avatar, r.value.stats, r.value.createdAt, r.value.lastActive) == (p.name, p.avatar, p.stats, p.createdAt, p.lastActive)
      ensures r.Some? ==> r.value.stats.gamesPlayed == r.value.stats.wins + r.value.stats.ties + r.value.stats.losses
    {
      if playerId in profiles then Some(profiles[playerId].GetProfile()) else None
    }

    /** `getPlayerHistory`: the newest `limit` summaries of a known player, none otherwise. */
    function GetPlayerHistory(playerId: PlayerId, limit: int): (r: seq<GameSummary>)
      reads this, profiles.Values
      ensures playerId !in profiles ==> r == []
      ensures playerId in profiles ==> r <= profiles[playerId].gameHistory
      ensures playerId in profiles && 0 <= limit ==> |r| == Min(limit, |profiles[playerId].gameHistory|)
      ensures playerId in profiles && limit < 0 ==> |r| == Max(|profiles[playerId].gameHistory| + limit, 0)
    {
      if playerId in profiles then profiles[playerId].GetGameHistory(limit) else []
    }

    /**
     * The quick-join handler of server/src/socket/socketHandler.js: join the
     * first waiting match, or create one under `freshId` when none waits.
     */
    method QuickJoin(playerId: PlayerId, playerName: string, avatar: string, freshId: string, now: int) returns (r: QuickJoined)
      requires Valid() && freshId != "" && freshId !in games
      modifies this, games.Values
      ensures Valid()
      ensures State() == Quick(old(State()), old(ProfileMap()), playerId, playerName, avatar, freshId, now)
      ensures r.Joined? <==> FirstOpen(old(GameMap()), old(order)) < |old(order)|
      ensures playerId in players && players[playerId] in games && r.game == games[players[playerId]]
      ensures ProfileMap() == old(ProfileMap())
    {
      ghost var t := State();
      ghost var ps := ProfileMap();
      ghost var a := AvatarFor(ps, playerId, avatar);
      var found := FindAvailableGame();
      GameMapSame();
      ProfilesAfter();
      match found
      case Some(game) =>
        ghost var i := FirstOpen(t.games, t.order);
        KeyedIds();
        assert game.id == t.order[i];
        var joined := JoinGame(game.id, playerId, playerName, avatar);
        assert joined.Ok? && State() == Join(t, t.order[i], playerId, playerName, a).value;
        r := Joined(game);
      case None =>
        var game := CreateGame(playerId, playerName, avatar, freshId, now);
        r := Created(game);
    }

  }
}
