/**
 * The live-game cache: a store of in-progress match snapshots with two
 * indexes, match id to (snapshot, capture instant) and player id to match
 * id, a lookup meant to heal itself, an overwriting store and a periodic
 * sweep that evicts expired matches together with the players pointing at
 * them. The lookup as written holds read guards on both indexes while it
 * removes from them and so blocks instead of healing; `Get` is the lookup
 * as intended and `GetAsWritten` the lookup as written.
 *
 * Time is explicit: an `Instant` is a reading of the monotonic clock in
 * nanoseconds, passed in where the source calls `Instant::now()`. The two
 * indexes are not kept coherent by any lock in the source, so nothing
 * here assumes they agree: every operation is defined on any state.
 */
module LiveGames {
  import opened Wrappers
  import opened Ints

  type Puuid = string
  type MatchId = nat
  type Instant = nat

  const NanosPerSecond: nat := 1_000_000_000

  /** A live-game snapshot; `details` stands for every field the cache never looks at. */
  datatype LiveGame = LiveGame(gameLength: U16, details: string)

  /** A `game_cache` value: the snapshot and the instant it was stored. */
  datatype Entry = Entry(game: LiveGame, capturedAt: Instant)

  /** Both indexes: `game_cache` and `puuid_to_game`. */
  datatype CacheState = CacheState(games: map<MatchId, Entry>, players: map<Puuid, MatchId>)

  /** `now - then` on `Instant`, which saturates at zero. */
  function Elapsed(now: Instant, earlier: Instant): nat {
    if now >= earlier then now - earlier else 0
  }

  /**
   * The snapshot handed out by a fresh hit: `game_length` advanced by the
   * whole seconds of `age`, through `as u16` and a wrapping `u16` add.
   */
  function Extrapolate(game: LiveGame, age: nat): (r: LiveGame)
    ensures r.details == game.details
    ensures game.gameLength + age / NanosPerSecond < 0x1_0000 ==>
              r.gameLength == game.gameLength + age / NanosPerSecond
  {
    game.(gameLength := WrappingAddU16(game.gameLength, AsU16(age / NanosPerSecond)))
  }

  /** What `get_game_data` hands back, and the state it leaves behind. */
  datatype Lookup = Lookup(result: Option<LiveGame>, after: CacheState)

  /**
   * `get_game_data` as intended: a lookup that heals itself, dropping a
   * mapping to a missing match and evicting an expired one. The source as
   * written blocks on those two paths instead (`GetAsWritten` below).
   */
  function Get(s: CacheState, expiration: nat, puuid: Puuid, now: Instant): Lookup {
    if puuid !in s.players then Lookup(None, s)
    else
      var id := s.players[puuid];
      if id !in s.games then Lookup(None, s.(players := s.players - {puuid}))
      else
        var e := s.games[id];
        var diff := Elapsed(now, e.capturedAt);
        if diff < expiration then Lookup(Some(Extrapolate(e.game, diff)), s)
        else Lookup(None, CacheState(s.games - {id}, s.players - {puuid}))
  }

  /**
   * The player index after inserting `puuid := id` for each listed player
   * in turn: every listed player points at `id`, every other mapping is
   * as it was.
   */
  function Assign(players: map<Puuid, MatchId>, puuids: seq<Puuid>, id: MatchId): (r: map<Puuid, MatchId>)
    ensures forall p | p in puuids :: p in r && r[p] == id
    ensures forall p | p !in puuids :: p in r <==> p in players
    ensures forall p | p !in puuids && p in players :: r[p] == players[p]
    decreases |puuids|
  {
    if |puuids| == 0 then players
    else Assign(players, puuids[..|puuids| - 1], id)[puuids[|puuids| - 1] := id]
  }

  /** `set_game_data`: overwrite the match entry, then point every listed player at it. */
  function Set(s: CacheState, gameId: MatchId, puuids: seq<Puuid>, game: LiveGame, now: Instant): CacheState {
    CacheState(s.games[gameId := Entry(game, now)], Assign(s.players, puuids, gameId))
  }

  /** The sweep's test, `now.duration_since(timestamp) >= expiration`. */
  predicate Expired(e: Entry, expiration: nat, now: Instant) {
    Elapsed(now, e.capturedAt) >= expiration
  }

  /** The match ids the sweep collects. */
  function ExpiredIds(s: CacheState, expiration: nat, now: Instant): set<MatchId> {
    set id | id in s.games && Expired(s.games[id], expiration, now)
  }

  /** One sweep of the cleanup task: drop expired matches and every player pointing at one. */
  function Swept(s: CacheState, expiration: nat, now: Instant): CacheState {
    var gone := ExpiredIds(s, expiration, now);
    CacheState(map id | id in s.games && id !in gone :: s.games[id],
               map p | p in s.players && s.players[p] !in gone :: s.players[p])
  }

  /** Index coherence: every player points at a match that is in the cache. */
  ghost predicate Coherent(s: CacheState) {
    forall p | p in s.players :: s.players[p] in s.games
  }

  // ------------------------------------------------------------ properties of get

  /** A player without a mapping: no result, nothing changes. */
  lemma GetUnmapped(s: CacheState, expiration: nat, puuid: Puuid, now: Instant)
    requires puuid !in s.players
    ensures Get(s, expiration, puuid, now) == Lookup(None, s)
  {
  }

  /** Torn state in the intended lookup: the player's match is missing; only that player's mapping goes. */
  lemma GetTorn(s: CacheState, expiration: nat, puuid: Puuid, now: Instant)
    requires puuid in s.players && s.players[puuid] !in s.games
    ensures var r := Get(s, expiration, puuid, now);
      && r.result == None
      && r.after.games == s.games
      && r.after.players == s.players - {puuid}
  {
  }

  /**
   * Fresh hit: the snapshot comes back with the elapsed whole seconds
   * added to its game length (wrapping at 2^16), and nothing changes.
   */
  lemma GetFresh(s: CacheState, expiration: nat, puuid: Puuid, now: Instant)
    requires puuid in s.players && s.players[puuid] in s.games
    requires Elapsed(now, s.games[s.players[puuid]].capturedAt) < expiration
    ensures var e := s.games[s.players[puuid]];
      var secs := Elapsed(now, e.capturedAt) / NanosPerSecond;
      var r := Get(s, expiration, puuid, now);
      && r.after == s
      && r.result.Some?
      && r.result.value.details == e.game.details
      && r.result.value.gameLength == (e.game.gameLength + secs) % 0x1_0000
  {
  }

  /**
   * Expired hit of the intended lookup: no result; the match entry and the
   * queried player's mapping go, while other players keep pointing at the
   * evicted match until their own lookup heals them.
   */
  lemma GetExpired(s: CacheState, expiration: nat, puuid: Puuid, now: Instant, other: Puuid, later: Instant)
    requires puuid in s.players && s.players[puuid] in s.games
    requires Expired(s.games[s.players[puuid]], expiration, now)
    requires other != puuid && other in s.players && s.players[other] == s.players[puuid]
    ensures var id := s.players[puuid];
      var r := Get(s, expiration, puuid, now);
      && r.result == None
      && r.after.games == s.games - {id}
      && r.after.players == s.players - {puuid}
      && r.after.players[other] == id
      && Get(r.after, expiration, other, later) == Lookup(None, CacheState(s.games - {id}, s.players - {puuid, other}))
  {
  }

  /** Whatever the state, a lookup never adds a mapping or an entry. */
  lemma GetOnlyRemoves(s: CacheState, expiration: nat, puuid: Puuid, now: Instant)
    ensures var r := Get(s, expiration, puuid, now);
      && r.after.games.Keys <= s.games.Keys
      && r.after.players.Keys <= s.players.Keys
      && (forall id | id in r.after.games :: r.after.games[id] == s.games[id])
      && (forall p | p in r.after.players :: r.after.players[p] == s.players[p])
      && (r.result.Some? <==> r.after == s && puuid in s.players && s.players[puuid] in s.games
                              && !Expired(s.games[s.players[puuid]], expiration, now))
  {
  }

  /** An expired hit of the intended lookup can leave other players dangling: it does not keep coherence. */
  lemma GetExpiredBreaksCoherence()
    ensures var s := CacheState(map[7 := Entry(LiveGame(0, ""), 0)], map["a" := 7, "b" := 7]);
      && Coherent(s)
      && !Coherent(Get(s, 1, "a", 5).after)
  {
    var s := CacheState(map[7 := Entry(LiveGame(0, ""), 0)], map["a" := 7, "b" := 7]);
    var after := Get(s, 1, "a", 5).after;
    assert "b" in after.players && after.players["b"] !in after.games;
  }

  // ------------------------------------------------- get as written: guards held across remove

  /** What a call to `get_game_data` as written comes to: a value, or a thread blocked for good. */
  datatype GetOutcome = Returns(value: Option<LiveGame>) | Deadlocks

  /**
   * `get_game_data` as written. The `Ref` taken from `puuid_to_game` and
   * the one taken from `game_cache` read-lock their shards until the end of
   * their `if let` blocks, and the `remove` calls inside those blocks need
   * a write lock on the very same shards, so the thread blocks on its own
   * guard. Only the paths that remove nothing complete.
   */
  function GetAsWritten(s: CacheState, expiration: nat, puuid: Puuid, now: Instant): GetOutcome {
    if puuid !in s.players then Returns(None)
    else
      var id := s.players[puuid];
      if id !in s.games then Deadlocks
      else
        var e := s.games[id];
        var diff := Elapsed(now, e.capturedAt);
        if diff < expiration then Returns(Some(Extrapolate(e.game, diff)))
        else Deadlocks
  }

  /**
   * The lookup as written blocks exactly where the healing lookup `Get`
   * would delete something, and wherever it completes it returns what
   * `Get` returns.
   */
  lemma GetAsWrittenBlocksOnRemoval(s: CacheState, expiration: nat, puuid: Puuid, now: Instant)
    ensures GetAsWritten(s, expiration, puuid, now).Deadlocks? <==> Get(s, expiration, puuid, now).after != s
    ensures GetAsWritten(s, expiration, puuid, now).Returns? ==>
              GetAsWritten(s, expiration, puuid, now).value == Get(s, expiration, puuid, now).result
  {
    if puuid in s.players {
      assert puuid in s.players.Keys && puuid !in (s.players - {puuid}).Keys;
    }
  }

  /** `set`, then a lookup for a listed player once the expiry has passed: as written, the call never returns. */
  lemma SetThenExpiredGetDeadlocks(s: CacheState, gameId: MatchId, puuids: seq<Puuid>, game: LiveGame, now: Instant,
                                   expiration: nat, p: Puuid, age: nat)
    requires p in puuids && age >= expiration
    ensures GetAsWritten(Set(s, gameId, puuids, game, now), expiration, p, now + age) == Deadlocks
  {
    var t := Set(s, gameId, puuids, game, now);
    assert t.players[p] == gameId;
    assert Elapsed(now + age, now) == age;
  }

  // ------------------------------------------------------------ properties of set

  /**
   * `set` overwrites the entry for its match with the new snapshot and
   * instant, points every listed player at it and touches nothing else.
   */
  lemma SetOverwrites(s: CacheState, gameId: MatchId, puuids: seq<Puuid>, game: LiveGame, now: Instant)
    ensures var r := Set(s, gameId, puuids, game, now);
      && r.games == s.games[gameId := Entry(game, now)]
      && (forall p | p in puuids :: r.players[p] == gameId)
      && (forall p | p !in puuids && p in s.players :: p in r.players && r.players[p] == s.players[p])
      && r.players.Keys == s.players.Keys + set p | p in puuids
  {
  }

  /** `set` followed by `get` at the same instant returns the snapshot unchanged. */
  lemma SetThenGet(s: CacheState, gameId: MatchId, puuids: seq<Puuid>, game: LiveGame, now: Instant, expiration: nat, p: Puuid)
    requires expiration > 0 && p in puuids
    ensures var t := Set(s, gameId, puuids, game, now);
      Get(t, expiration, p, now) == Lookup(Some(game), t)
  {
    var t := Set(s, gameId, puuids, game, now);
    assert t.players[p] == gameId;
    assert Elapsed(now, now) == 0;
  }

  /**
   * Elapsed extrapolation: `age` nanoseconds later, while unexpired, the
   * lookup yields the stored game length plus the whole seconds of age.
   */
  lemma SetThenGetLater(s: CacheState, gameId: MatchId, puuids: seq<Puuid>, game: LiveGame, now: Instant,
                        expiration: nat, p: Puuid, age: nat)
    requires p in puuids && age < expiration
    requires game.gameLength + age / NanosPerSecond < 0x1_0000
    ensures var t := Set(s, gameId, puuids, game, now);
      Get(t, expiration, p, now + age)
        == Lookup(Some(game.(gameLength := game.gameLength + age / NanosPerSecond)), t)
  {
    var t := Set(s, gameId, puuids, game, now);
    assert t.players[p] == gameId;
    assert Elapsed(now + age, now) == age;
  }

  /** Two stores for one match: only the second snapshot can be read back. */
  lemma SetTwiceKeepsSecond(s: CacheState, gameId: MatchId, puuids1: seq<Puuid>, game1: LiveGame,
                            puuids2: seq<Puuid>, game2: LiveGame, now: Instant, expiration: nat, p: Puuid)
    requires expiration > 0 && (p in puuids1 || p in puuids2)
    ensures var t := Set(Set(s, gameId, puuids1, game1, now), gameId, puuids2, game2, now);
      && t.games[gameId] == Entry(game2, now)
      && Get(t, expiration, p, now).result == Some(game2)
  {
    var t := Set(Set(s, gameId, puuids1, game1, now), gameId, puuids2, game2, now);
    assert t.players[p] == gameId;
    assert Elapsed(now, now) == 0;
  }

  /** Expiry: once the age reaches the expiration, the intended lookup evicts the match and the player. */
  lemma SetThenExpire(s: CacheState, gameId: MatchId, puuids: seq<Puuid>, game: LiveGame, now: Instant,
                      expiration: nat, p: Puuid, age: nat)
    requires p in puuids && age >= expiration
    ensures var t := Set(s, gameId, puuids, game, now);
      var r := Get(t, expiration, p, now + age);
      && r.result == None
      && gameId !in r.after.games
      && p !in r.after.players
  {
    var t := Set(s, gameId, puuids, game, now);
    assert t.players[p] == gameId;
    assert Elapsed(now + age, now) == age;
  }

  /** `set` keeps the indexes coherent. */
  lemma SetKeepsCoherence(s: CacheState, gameId: MatchId, puuids: seq<Puuid>, game: LiveGame, now: Instant)
    requires Coherent(s)
    ensures Coherent(Set(s, gameId, puuids, game, now))
  {
  }

  // ---------------------------------------------------------- properties of the sweep

  /**
   * After a sweep no entry is expired, no player points at an evicted
   * match, and unexpired matches and their players are kept.
   */
  lemma SweepEvicts(s: CacheState, expiration: nat, now: Instant)
    ensures var r := Swept(s, expiration, now);
      && (forall id | id in r.games :: !Expired(r.games[id], expiration, now))
      && (forall p | p in r.players :: r.players[p] !in ExpiredIds(s, expiration, now))
      && (forall id | id in s.games && !Expired(s.games[id], expiration, now) ::
            id in r.games && r.games[id] == s.games[id])
      && (forall p | p in s.players && s.players[p] !in ExpiredIds(s, expiration, now) ::
            p in r.players && r.players[p] == s.players[p])
      && r.games.Keys <= s.games.Keys && r.players.Keys <= s.players.Keys
  {
  }

  /**
   * A sweep keeps coherence and then establishes the full invariant: every
   * mapped player points at an unexpired match.
   */
  lemma SweepRestoresInvariant(s: CacheState, expiration: nat, now: Instant)
    requires Coherent(s)
    ensures var r := Swept(s, expiration, now);
      && Coherent(r)
      && forall p | p in r.players :: !Expired(r.games[r.players[p]], expiration, now)
  {
  }

  /** An expired match is gone from both indexes after a sweep. */
  lemma SetThenSweep(s: CacheState, gameId: MatchId, puuids: seq<Puuid>, game: LiveGame, now: Instant,
                     expiration: nat, age: nat)
    requires age >= expiration
    ensures var r := Swept(Set(s, gameId, puuids, game, now), expiration, now + age);
      && gameId !in r.games
      && forall p | p in r.players :: r.players[p] != gameId
  {
    var t := Set(s, gameId, puuids, game, now);
    assert Elapsed(now + age, now) == age;
    assert gameId in ExpiredIds(t, expiration, now + age);
  }

  /**
   * `get` (which serves when the age is `< expiration`) and the sweep
   * (which evicts when it is `>= expiration`) agree on every entry: a
   * lookup through a player hits exactly when the sweep would keep the match.
   */
  lemma GetAgreesWithSweep(s: CacheState, expiration: nat, puuid: Puuid, now: Instant)
    requires puuid in s.players && s.players[puuid] in s.games
    ensures Get(s, expiration, puuid, now).result.Some?
        <==> s.players[puuid] in Swept(s, expiration, now).games
    ensures Get(s, expiration, puuid, now).result.Some?
        <==> puuid in Swept(s, expiration, now).players
  {
  }

  // ----------------------------------------------------------------- the cache

  /** `LiveGameCache`: the two indexes, updated in place, and the expiration. */
  class LiveGameCache {
    var gameCache: map<MatchId, Entry>
    var puuidToGame: map<Puuid, MatchId>
    const expiration: nat

    function State(): CacheState
      reads this
    {
      CacheState(gameCache, puuidToGame)
    }

    /** `LiveGameCache::new`: both indexes empty. */
    constructor (expiration: nat)
      ensures State() == CacheState(map[], map[])
      ensures this.expiration == expiration
    {
      gameCache := map[];
      puuidToGame := map[];
      this.expiration := expiration;
    }

    /**
     * `get_game_data` as intended (`Get`), with `now` for `Instant::now()`;
     * the source as written blocks where this removes (`GetAsWritten`).
     */
    method GetGameData(puuid: Puuid, now: Instant) returns (r: Option<LiveGame>)
      modifies this
      ensures Lookup(r, State()) == Get(old(State()), expiration, puuid, now)
    {
      if puuid in puuidToGame {
        var gameId := puuidToGame[puuid];
        if gameId in gameCache {
          var entry := gameCache[gameId];
          var diff := Elapsed(now, entry.capturedAt);
          if diff < expiration {
            var data := entry.game;
            data := data.(gameLength := WrappingAddU16(data.gameLength, AsU16(diff / NanosPerSecond)));
            return Some(data);
          } else {
            gameCache := gameCache - {gameId};
            puuidToGame := puuidToGame - {puuid};
          }
        } else {
          puuidToGame := puuidToGame - {puuid};
        }
      }
      return None;
    }

    /** `set_game_data`, with `now` for `Instant::now()`. */
    method SetGameData(gameId: MatchId, puuids: seq<Puuid>, game: LiveGame, now: Instant)
      modifies this
      ensures State() == Set(old(State()), gameId, puuids, game, now)
    {
      gameCache := gameCache[gameId := Entry(game, now)];
      var i := 0;
      while i < |puuids|
        invariant 0 <= i <= |puuids|
        invariant gameCache == old(gameCache)[gameId := Entry(game, now)]
        invariant puuidToGame == Assign(old(puuidToGame), puuids[..i], gameId)
      {
        assert puuids[..i + 1][..i] == puuids[..i];
        puuidToGame := puuidToGame[puuids[i] := gameId];
        i := i + 1;
      }
      assert puuids[..|puuids|] == puuids;
    }

    /** First pass of a sweep: the ids of every expired entry. */
    method CollectExpiredIds(now: Instant) returns (ids: seq<MatchId>)
      ensures forall id :: id in ids <==> id in ExpiredIds(State(), expiration, now)
    {
      ids := [];
      var unseen := gameCache.Keys;
      while unseen != {}
        invariant unseen <= gameCache.Keys
        invariant forall id :: id in ids <==>
          id in gameCache && id !in unseen && Expired(gameCache[id], expiration, now)
        decreases |unseen|
      {
        var id :| id in unseen;
        if Elapsed(now, gameCache[id].capturedAt) >= expiration {
          ids := ids + [id];
        }
        unseen := unseen - {id};
      }
    }

    /** The players currently pointing at `gameId`. */
    method CollectPuuidsOf(gameId: MatchId) returns (puuids: seq<Puuid>)
      ensures forall p :: p in puuids <==> p in puuidToGame && puuidToGame[p] == gameId
    {
      puuids := [];
      var unseen := puuidToGame.Keys;
      while unseen != {}
        invariant unseen <= puuidToGame.Keys
        invariant forall p :: p in puuids <==> p in puuidToGame && p !in unseen && puuidToGame[p] == gameId
        decreases |unseen|
      {
        var p :| p in unseen;
        if puuidToGame[p] == gameId {
          puuids := puuids + [p];
        }
        unseen := unseen - {p};
      }
    }

    /** Removes the listed players from the player index. */
    method RemovePuuids(puuids: seq<Puuid>)
      modifies this
      ensures gameCache == old(gameCache)
      ensures puuidToGame == map p | p in old(puuidToGame) && p !in puuids :: old(puuidToGame)[p]
    {
      var j := 0;
      while j < |puuids|
        invariant 0 <= j <= |puuids|
        invariant gameCache == old(gameCache)
        invariant puuidToGame == map p | p in old(puuidToGame) && p !in puuids[..j] :: old(puuidToGame)[p]
      {
        assert puuids[..j + 1] == puuids[..j] + [puuids[j]];
        puuidToGame := puuidToGame - {puuids[j]};
        j := j + 1;
      }
      assert puuids[..|puuids|] == puuids;
    }

    /** Evicts one expired match: its entry, then every player pointing at it. */
    method EvictGame(gameId: MatchId)
      modifies this
      ensures gameCache == old(gameCache) - {gameId}
      ensures puuidToGame == map p | p in old(puuidToGame) && old(puuidToGame)[p] != gameId :: old(puuidToGame)[p]
    {
      gameCache := gameCache - {gameId};
      var expiredPuuids := CollectPuuidsOf(gameId);
      RemovePuuids(expiredPuuids);
    }

    /** One iteration of `schedule_live_game_cache_cleanup_task`'s loop, at instant `now`. */
    method Sweep(now: Instant)
      modifies this
      ensures State() == Swept(old(State()), expiration, now)
    {
      var expiredIds := CollectExpiredIds(now);
      var k := 0;
      while k < |expiredIds|
        invariant 0 <= k <= |expiredIds|
        invariant gameCache == map id | id in old(gameCache) && id !in expiredIds[..k] :: old(gameCache)[id]
        invariant puuidToGame == map p | p in old(puuidToGame) && old(puuidToGame)[p] !in expiredIds[..k] :: old(puuidToGame)[p]
      {
        assert expiredIds[..k + 1] == expiredIds[..k] + [expiredIds[k]];
        EvictGame(expiredIds[k]);
        k := k + 1;
      }
      assert expiredIds[..|expiredIds|] == expiredIds;
    }
  }
}
