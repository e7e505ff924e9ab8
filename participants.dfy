/**
 * The bulk insert of match participants: the staging records are
 * transposed into 41 column arrays by four `map(...).multiunzip()` passes,
 * the arrays are bound in order to `$1`..`$41` of one
 * `INSERT INTO lol_match_participants (...) SELECT * FROM UNNEST (...)`,
 * and the statement appends one row per record or fails as a whole.
 */
module Participants {
  import opened Wrappers

  /** A `FLOAT8` value, kept opaque: only its identity matters to the transposition. */
  datatype Float8 = Float8(bits: int)

  /** A staging record, one field per inserted column. */
  datatype TempParticipant = TempParticipant(
    championId: int,
    summonerId: int,
    lolMatchId: int,
    summonerSpell1Id: int,
    summonerSpell2Id: int,
    teamId: int,
    won: bool,
    champLevel: int,
    killParticipation: Float8,
    kda: Float8,
    kills: int,
    deaths: int,
    assists: int,
    damageDealtToChampions: int,
    damageTaken: int,
    goldEarned: int,
    wardsPlaced: int,
    cs: int,
    csPerMinute: Float8,
    doubleKills: int,
    tripleKills: int,
    quadraKills: int,
    pentaKills: int,
    perkDefenseId: int,
    perkFlexId: int,
    perkOffenseId: int,
    perkPrimaryStyleId: int,
    perkSubStyleId: int,
    perkPrimarySelectionId: int,
    perkPrimarySelection1Id: int,
    perkPrimarySelection2Id: int,
    perkPrimarySelection3Id: int,
    perkSubSelection1Id: int,
    perkSubSelection2Id: int,
    item0Id: int,
    item1Id: int,
    item2Id: int,
    item3Id: int,
    item4Id: int,
    item5Id: int,
    item6Id: int)

  /** The columns of `lol_match_participants` the statement fills. */
  datatype Column =
      ChampionId
    | SummonerId
    | LolMatchId
    | SummonerSpell1Id
    | SummonerSpell2Id
    | TeamId
    | Won
    | ChampLevel
    | KillParticipation
    | Kda
    | Kills
    | Deaths
    | Assists
    | DamageDealtToChampions
    | DamageTaken
    | GoldEarned
    | WardsPlaced
    | Cs
    | CsPerMinute
    | DoubleKills
    | TripleKills
    | QuadraKills
    | PentaKills
    | PerkDefenseId
    | PerkFlexId
    | PerkOffenseId
    | PerkPrimaryStyleId
    | PerkSubStyleId
    | PerkPrimarySelectionId
    | PerkPrimarySelection1Id
    | PerkPrimarySelection2Id
    | PerkPrimarySelection3Id
    | PerkSubSelection1Id
    | PerkSubSelection2Id
    | Item0Id
    | Item1Id
    | Item2Id
    | Item3Id
    | Item4Id
    | Item5Id
    | Item6Id

  /** The column list of the `INSERT`, in order. */
  const InsertColumns: seq<Column> := [
    ChampionId,
    SummonerId,
    LolMatchId,
    SummonerSpell1Id,
    SummonerSpell2Id,
    TeamId,
    Won,
    ChampLevel,
    KillParticipation,
    Kda,
    Kills,
    Deaths,
    Assists,
    DamageDealtToChampions,
    DamageTaken,
    GoldEarned,
    WardsPlaced,
    Cs,
    CsPerMinute,
    DoubleKills,
    TripleKills,
    QuadraKills,
    PentaKills,
    PerkDefenseId,
    PerkFlexId,
    PerkOffenseId,
    PerkPrimaryStyleId,
    PerkSubStyleId,
    PerkPrimarySelectionId,
    PerkPrimarySelection1Id,
    PerkPrimarySelection2Id,
    PerkPrimarySelection3Id,
    PerkSubSelection1Id,
    PerkSubSelection2Id,
    Item0Id,
    Item1Id,
    Item2Id,
    Item3Id,
    Item4Id,
    Item5Id,
    Item6Id]

  /** The column's SQL identifier. */
  function ColumnName(c: Column): string {
    match c
    case ChampionId => "champion_id"
    case SummonerId => "summoner_id"
    case LolMatchId => "lol_match_id"
    case SummonerSpell1Id => "summoner_spell1_id"
    case SummonerSpell2Id => "summoner_spell2_id"
    case TeamId => "team_id"
    case Won => "won"
    case ChampLevel => "champ_level"
    case KillParticipation => "kill_participation"
    case Kda => "kda"
    case Kills => "kills"
    case Deaths => "deaths"
    case Assists => "assists"
    case DamageDealtToChampions => "damage_dealt_to_champions"
    case DamageTaken => "damage_taken"
    case GoldEarned => "gold_earned"
    case WardsPlaced => "wards_placed"
    case Cs => "cs"
    case CsPerMinute => "cs_per_minute"
    case DoubleKills => "double_kills"
    case TripleKills => "triple_kills"
    case QuadraKills => "quadra_kills"
    case PentaKills => "penta_kills"
    case PerkDefenseId => "perk_defense_id"
    case PerkFlexId => "perk_flex_id"
    case PerkOffenseId => "perk_offense_id"
    case PerkPrimaryStyleId => "perk_primary_style_id"
    case PerkSubStyleId => "perk_sub_style_id"
    case PerkPrimarySelectionId => "perk_primary_selection_id"
    case PerkPrimarySelection1Id => "perk_primary_selection1_id"
    case PerkPrimarySelection2Id => "perk_primary_selection2_id"
    case PerkPrimarySelection3Id => "perk_primary_selection3_id"
    case PerkSubSelection1Id => "perk_sub_selection1_id"
    case PerkSubSelection2Id => "perk_sub_selection2_id"
    case Item0Id => "item0_id"
    case Item1Id => "item1_id"
    case Item2Id => "item2_id"
    case Item3Id => "item3_id"
    case Item4Id => "item4_id"
    case Item5Id => "item5_id"
    case Item6Id => "item6_id"
  }

  /** Where a column stands in the `INSERT`'s column list. */
  function ColumnIndex(c: Column): (k: nat)
    ensures k < 41
  {
    match c
    case ChampionId => 0
    case SummonerId => 1
    case LolMatchId => 2
    case SummonerSpell1Id => 3
    case SummonerSpell2Id => 4
    case TeamId => 5
    case Won => 6
    case ChampLevel => 7
    case KillParticipation => 8
    case Kda => 9
    case Kills => 10
    case Deaths => 11
    case Assists => 12
    case DamageDealtToChampions => 13
    case DamageTaken => 14
    case GoldEarned => 15
    case WardsPlaced => 16
    case Cs => 17
    case CsPerMinute => 18
    case DoubleKills => 19
    case TripleKills => 20
    case QuadraKills => 21
    case PentaKills => 22
    case PerkDefenseId => 23
    case PerkFlexId => 24
    case PerkOffenseId => 25
    case PerkPrimaryStyleId => 26
    case PerkSubStyleId => 27
    case PerkPrimarySelectionId => 28
    case PerkPrimarySelection1Id => 29
    case PerkPrimarySelection2Id => 30
    case PerkPrimarySelection3Id => 31
    case PerkSubSelection1Id => 32
    case PerkSubSelection2Id => 33
    case Item0Id => 34
    case Item1Id => 35
    case Item2Id => 36
    case Item3Id => 37
    case Item4Id => 38
    case Item5Id => 39
    case Item6Id => 40
  }

  datatype SqlType = Int | Bool | Float8Type

  /** The element types of the `UNNEST` arguments `$1::INT[]` .. `$41::INT[]`. */
  const PlaceholderTypes: seq<SqlType> := [
    Int, Int, Int, Int, Int, Int, Bool, Int, Float8Type, Float8Type,
    Int, Int, Int, Int, Int, Int, Int, Int, Float8Type, Int,
    Int, Int, Int, Int, Int, Int, Int, Int, Int, Int,
    Int, Int, Int, Int, Int, Int, Int, Int, Int, Int,
    Int]

  /** A cell of a row; `Null` is what `UNNEST` yields past the end of a shorter array. */
  datatype SqlValue = IntValue(i: int) | BoolValue(b: bool) | Float8Value(f: Float8) | Null

  /** A bound array parameter. */
  datatype SqlArray = IntArray(ints: seq<int>) | BoolArray(bools: seq<bool>) | Float8Array(floats: seq<Float8>)

  function ArrayType(a: SqlArray): SqlType {
    match a
    case IntArray(_) => Int
    case BoolArray(_) => Bool
    case Float8Array(_) => Float8Type
  }

  function ArrayLength(a: SqlArray): nat {
    match a
    case IntArray(xs) => |xs|
    case BoolArray(xs) => |xs|
    case Float8Array(xs) => |xs|
  }

  function ValueAt(a: SqlArray, i: nat): SqlValue
    requires i < ArrayLength(a)
  {
    match a
    case IntArray(xs) => IntValue(xs[i])
    case BoolArray(xs) => BoolValue(xs[i])
    case Float8Array(xs) => Float8Value(xs[i])
  }

  /** The record's value for a column. */
  function FieldOf(p: TempParticipant, c: Column): SqlValue {
    match c
    case ChampionId => IntValue(p.championId)
    case SummonerId => IntValue(p.summonerId)
    case LolMatchId => IntValue(p.lolMatchId)
    case SummonerSpell1Id => IntValue(p.summonerSpell1Id)
    case SummonerSpell2Id => IntValue(p.summonerSpell2Id)
    case TeamId => IntValue(p.teamId)
    case Won => BoolValue(p.won)
    case ChampLevel => IntValue(p.champLevel)
    case KillParticipation => Float8Value(p.killParticipation)
    case Kda => Float8Value(p.kda)
    case Kills => IntValue(p.kills)
    case Deaths => IntValue(p.deaths)
    case Assists => IntValue(p.assists)
    case DamageDealtToChampions => IntValue(p.damageDealtToChampions)
    case DamageTaken => IntValue(p.damageTaken)
    case GoldEarned => IntValue(p.goldEarned)
    case WardsPlaced => IntValue(p.wardsPlaced)
    case Cs => IntValue(p.cs)
    case CsPerMinute => Float8Value(p.csPerMinute)
    case DoubleKills => IntValue(p.doubleKills)
    case TripleKills => IntValue(p.tripleKills)
    case QuadraKills => IntValue(p.quadraKills)
    case PentaKills => IntValue(p.pentaKills)
    case PerkDefenseId => IntValue(p.perkDefenseId)
    case PerkFlexId => IntValue(p.perkFlexId)
    case PerkOffenseId => IntValue(p.perkOffenseId)
    case PerkPrimaryStyleId => IntValue(p.perkPrimaryStyleId)
    case PerkSubStyleId => IntValue(p.perkSubStyleId)
    case PerkPrimarySelectionId => IntValue(p.perkPrimarySelectionId)
    case PerkPrimarySelection1Id => IntValue(p.perkPrimarySelection1Id)
    case PerkPrimarySelection2Id => IntValue(p.perkPrimarySelection2Id)
    case PerkPrimarySelection3Id => IntValue(p.perkPrimarySelection3Id)
    case PerkSubSelection1Id => IntValue(p.perkSubSelection1Id)
    case PerkSubSelection2Id => IntValue(p.perkSubSelection2Id)
    case Item0Id => IntValue(p.item0Id)
    case Item1Id => IntValue(p.item1Id)
    case Item2Id => IntValue(p.item2Id)
    case Item3Id => IntValue(p.item3Id)
    case Item4Id => IntValue(p.item4Id)
    case Item5Id => IntValue(p.item5Id)
    case Item6Id => IntValue(p.item6Id)
  }

  /** The vectors of the first `multiunzip` in `bulk_insert_lol_match_participants` (bulk_lol_match_participants.rs). */
  datatype Pass1Columns = Pass1Columns(
    championIds: seq<int>,
    summonerIds: seq<int>,
    matchIds: seq<int>,
    summonerSpell1Ids: seq<int>,
    summonerSpell2Ids: seq<int>,
    teamIds: seq<int>,
    wonFlags: seq<bool>,
    champLevels: seq<int>,
    killParticipations: seq<Float8>,
    kdas: seq<Float8>)

  /** Every vector of pass 1 has `n` entries. */
  predicate Pass1Sized(u: Pass1Columns, n: nat) {
    |u.championIds| == n
    && |u.summonerIds| == n
    && |u.matchIds| == n
    && |u.summonerSpell1Ids| == n
    && |u.summonerSpell2Ids| == n
    && |u.teamIds| == n
    && |u.wonFlags| == n
    && |u.champLevels| == n
    && |u.killParticipations| == n
    && |u.kdas| == n
  }

  /**
   * Pass 1: each record is mapped to the tuple of its fields, and
   * `multiunzip` pushes each component onto its vector, in record order.
   */
  function UnzipPass1(ps: seq<TempParticipant>): (u: Pass1Columns)
    ensures Pass1Sized(u, |ps|)
    decreases |ps|
  {
    if |ps| == 0 then Pass1Columns([], [], [], [], [], [], [], [], [], [])
    else
      var u := UnzipPass1(ps[..|ps| - 1]);
      var p := ps[|ps| - 1];
      Pass1Columns(
        u.championIds + [p.championId],
        u.summonerIds + [p.summonerId],
        u.matchIds + [p.lolMatchId],
        u.summonerSpell1Ids + [p.summonerSpell1Id],
        u.summonerSpell2Ids + [p.summonerSpell2Id],
        u.teamIds + [p.teamId],
        u.wonFlags + [p.won],
        u.champLevels + [p.champLevel],
        u.killParticipations + [p.killParticipation],
        u.kdas + [p.kda])
  }

  /** Entry `i` of every vector of pass 1 is the matching field of `p`. */
  predicate Pass1At(u: Pass1Columns, i: nat, p: TempParticipant) {
    i < |u.championIds| && u.championIds[i] == p.championId
    && i < |u.summonerIds| && u.summonerIds[i] == p.summonerId
    && i < |u.matchIds| && u.matchIds[i] == p.lolMatchId
    && i < |u.summonerSpell1Ids| && u.summonerSpell1Ids[i] == p.summonerSpell1Id
    && i < |u.summonerSpell2Ids| && u.summonerSpell2Ids[i] == p.summonerSpell2Id
    && i < |u.teamIds| && u.teamIds[i] == p.teamId
    && i < |u.wonFlags| && u.wonFlags[i] == p.won
    && i < |u.champLevels| && u.champLevels[i] == p.champLevel
    && i < |u.killParticipations| && u.killParticipations[i] == p.killParticipation
    && i < |u.kdas| && u.kdas[i] == p.kda
  }

  /** Pass 1 transposes: entry `i` of every vector is the matching field of record `i`. */
  lemma {:induction false} UnzipPass1At(ps: seq<TempParticipant>, i: nat)
    requires i < |ps|
    ensures Pass1At(UnzipPass1(ps), i, ps[i])
    decreases |ps|
  {
    if i < |ps| - 1 {
      assert ps[..|ps| - 1][i] == ps[i];
      UnzipPass1At(ps[..|ps| - 1], i);
    }
  }

  /** The `.bind` calls of pass 1's vectors, in call order. */
  function Pass1Binds(u: Pass1Columns): seq<SqlArray> {
    [
      IntArray(u.championIds),
      IntArray(u.summonerIds),
      IntArray(u.matchIds),
      IntArray(u.summonerSpell1Ids),
      IntArray(u.summonerSpell2Ids),
      IntArray(u.teamIds),
      BoolArray(u.wonFlags),
      IntArray(u.champLevels),
      Float8Array(u.killParticipations),
      Float8Array(u.kdas)]
  }

  /** Shape of pass 1's parameters `$1` to `$4`: `n` entries, each of its placeholder's type. */
  lemma Pass1BindShape1(u: Pass1Columns, n: nat, j: nat)
    requires Pass1Sized(u, n) && 0 <= j < 4
    ensures var b := Pass1Binds(u);
      && |b| == 10 && ArrayLength(b[j]) == n
      && ArrayType(b[j]) == PlaceholderTypes[0 + j]
  {
    if j == 0 {
      assert PlaceholderTypes[0] == Int;
    } else if j == 1 {
      assert PlaceholderTypes[1] == Int;
    } else if j == 2 {
      assert PlaceholderTypes[2] == Int;
    } else {
      assert PlaceholderTypes[3] == Int;
    }
  }

  /** Shape of pass 1's parameters `$5` to `$7`: `n` entries, each of its placeholder's type. */
  lemma Pass1BindShape2(u: Pass1Columns, n: nat, j: nat)
    requires Pass1Sized(u, n) && 4 <= j < 7
    ensures var b := Pass1Binds(u);
      && |b| == 10 && ArrayLength(b[j]) == n
      && ArrayType(b[j]) == PlaceholderTypes[0 + j]
  {
    if j == 4 {
      assert PlaceholderTypes[4] == Int;
    } else if j == 5 {
      assert PlaceholderTypes[5] == Int;
    } else {
      assert PlaceholderTypes[6] == Bool;
    }
  }

  /** Shape of pass 1's parameters `$8` to `$10`: `n` entries, each of its placeholder's type. */
  lemma Pass1BindShape3(u: Pass1Columns, n: nat, j: nat)
    requires Pass1Sized(u, n) && 7 <= j < 10
    ensures var b := Pass1Binds(u);
      && |b| == 10 && ArrayLength(b[j]) == n
      && ArrayType(b[j]) == PlaceholderTypes[0 + j]
  {
    if j == 7 {
      assert PlaceholderTypes[7] == Int;
    } else if j == 8 {
      assert PlaceholderTypes[8] == Float8Type;
    } else {
      assert PlaceholderTypes[9] == Float8Type;
    }
  }

  /** Order of pass 1's parameters `$1` to `$4`: entry `i` is the field column 0 + `j` names. */
  lemma Pass1BindOrder1(u: Pass1Columns, i: nat, p: TempParticipant, j: nat)
    requires Pass1At(u, i, p) && 0 <= j < 4
    ensures var b := Pass1Binds(u);
      && |b| == 10 && i < ArrayLength(b[j])
      && ValueAt(b[j], i) == FieldOf(p, InsertColumns[0 + j])
  {
    if j == 0 {
      assert InsertColumns[0] == ChampionId;
    } else if j == 1 {
      assert InsertColumns[1] == SummonerId;
    } else if j == 2 {
      assert InsertColumns[2] == LolMatchId;
    } else {
      assert InsertColumns[3] == SummonerSpell1Id;
    }
  }

  /** Order of pass 1's parameters `$5` to `$7`: entry `i` is the field column 0 + `j` names. */
  lemma Pass1BindOrder2(u: Pass1Columns, i: nat, p: TempParticipant, j: nat)
    requires Pass1At(u, i, p) && 4 <= j < 7
    ensures var b := Pass1Binds(u);
      && |b| == 10 && i < ArrayLength(b[j])
      && ValueAt(b[j], i) == FieldOf(p, InsertColumns[0 + j])
  {
    if j == 4 {
      assert InsertColumns[4] == SummonerSpell2Id;
    } else if j == 5 {
      assert InsertColumns[5] == TeamId;
    } else {
      assert InsertColumns[6] == Won;
    }
  }

  /** Order of pass 1's parameters `$8` to `$10`: entry `i` is the field column 0 + `j` names. */
  lemma Pass1BindOrder3(u: Pass1Columns, i: nat, p: TempParticipant, j: nat)
    requires Pass1At(u, i, p) && 7 <= j < 10
    ensures var b := Pass1Binds(u);
      && |b| == 10 && i < ArrayLength(b[j])
      && ValueAt(b[j], i) == FieldOf(p, InsertColumns[0 + j])
  {
    if j == 7 {
      assert InsertColumns[7] == ChampLevel;
    } else if j == 8 {
      assert InsertColumns[8] == KillParticipation;
    } else {
      assert InsertColumns[9] == Kda;
    }
  }

  /**
   * Pass 1's parameters `$1` to `$10` have as many entries as the pass
   * has records, and the `j`-th has the element type of placeholder
   * `$(0 + j + 1)`.
   */
  lemma Pass1BindShape(u: Pass1Columns, n: nat, j: nat)
    requires Pass1Sized(u, n) && j < 10
    ensures var b := Pass1Binds(u);
      && |b| == 10 && ArrayLength(b[j]) == n
      && ArrayType(b[j]) == PlaceholderTypes[0 + j]
  {
    if j < 4 {
      Pass1BindShape1(u, n, j);
    } else if j < 7 {
      Pass1BindShape2(u, n, j);
    } else {
      Pass1BindShape3(u, n, j);
    }
  }

  /**
   * Pass 1's parameters `$1` to `$10`: the `j`-th of the pass holds, at
   * entry `i`, the field of `p` that column 0 + `j` of the column list names.
   */
  lemma Pass1BindOrder(u: Pass1Columns, i: nat, p: TempParticipant, j: nat)
    requires Pass1At(u, i, p) && j < 10
    ensures var b := Pass1Binds(u);
      && |b| == 10 && i < ArrayLength(b[j])
      && ValueAt(b[j], i) == FieldOf(p, InsertColumns[0 + j])
  {
    if j < 4 {
      Pass1BindOrder1(u, i, p, j);
    } else if j < 7 {
      Pass1BindOrder2(u, i, p, j);
    } else {
      Pass1BindOrder3(u, i, p, j);
    }
  }

  /** The vectors of the second `multiunzip` in `bulk_insert_lol_match_participants` (bulk_lol_match_participants.rs). */
  datatype Pass2Columns = Pass2Columns(
    killss: seq<int>,
    deathss: seq<int>,
    assistss: seq<int>,
    damageDealtToChampionss: seq<int>,
    damageTakens: seq<int>,
    goldEarneds: seq<int>,
    wardsPlaceds: seq<int>,
    css: seq<int>,
    cssPerMinute: seq<Float8>,
    doubleKills: seq<int>)

  /** Every vector of pass 2 has `n` entries. */
  predicate Pass2Sized(u: Pass2Columns, n: nat) {
    |u.killss| == n
    && |u.deathss| == n
    && |u.assistss| == n
    && |u.damageDealtToChampionss| == n
    && |u.damageTakens| == n
    && |u.goldEarneds| == n
    && |u.wardsPlaceds| == n
    && |u.css| == n
    && |u.cssPerMinute| == n
    && |u.doubleKills| == n
  }

  /**
   * Pass 2: each record is mapped to the tuple of its fields, and
   * `multiunzip` pushes each component onto its vector, in record order.
   */
  function UnzipPass2(ps: seq<TempParticipant>): (u: Pass2Columns)
    ensures Pass2Sized(u, |ps|)
    decreases |ps|
  {
    if |ps| == 0 then Pass2Columns([], [], [], [], [], [], [], [], [], [])
    else
      var u := UnzipPass2(ps[..|ps| - 1]);
      var p := ps[|ps| - 1];
      Pass2Columns(
        u.killss + [p.kills],
        u.deathss + [p.deaths],
        u.assistss + [p.assists],
        u.damageDealtToChampionss + [p.damageDealtToChampions],
        u.damageTakens + [p.damageTaken],
        u.goldEarneds + [p.goldEarned],
        u.wardsPlaceds + [p.wardsPlaced],
        u.css + [p.cs],
        u.cssPerMinute + [p.csPerMinute],
        u.doubleKills + [p.doubleKills])
  }

  /** Entry `i` of every vector of pass 2 is the matching field of `p`. */
  predicate Pass2At(u: Pass2Columns, i: nat, p: TempParticipant) {
    i < |u.killss| && u.killss[i] == p.kills
    && i < |u.deathss| && u.deathss[i] == p.deaths
    && i < |u.assistss| && u.assistss[i] == p.assists
    && i < |u.damageDealtToChampionss| && u.damageDealtToChampionss[i] == p.damageDealtToChampions
    && i < |u.damageTakens| && u.damageTakens[i] == p.damageTaken
    && i < |u.goldEarneds| && u.goldEarneds[i] == p.goldEarned
    && i < |u.wardsPlaceds| && u.wardsPlaceds[i] == p.wardsPlaced
    && i < |u.css| && u.css[i] == p.cs
    && i < |u.cssPerMinute| && u.cssPerMinute[i] == p.csPerMinute
    && i < |u.doubleKills| && u.doubleKills[i] == p.doubleKills
  }

  /** Pass 2 transposes: entry `i` of every vector is the matching field of record `i`. */
  lemma {:induction false} UnzipPass2At(ps: seq<TempParticipant>, i: nat)
    requires i < |ps|
    ensures Pass2At(UnzipPass2(ps), i, ps[i])
    decreases |ps|
  {
    if i < |ps| - 1 {
      assert ps[..|ps| - 1][i] == ps[i];
      UnzipPass2At(ps[..|ps| - 1], i);
    }
  }

  /** The `.bind` calls of pass 2's vectors, in call order. */
  function Pass2Binds(u: Pass2Columns): seq<SqlArray> {
    [
      IntArray(u.killss),
      IntArray(u.deathss),
      IntArray(u.assistss),
      IntArray(u.damageDealtToChampionss),
      IntArray(u.damageTakens),
      IntArray(u.goldEarneds),
      IntArray(u.wardsPlaceds),
      IntArray(u.css),
      Float8Array(u.cssPerMinute),
      IntArray(u.doubleKills)]
  }

  /** Shape of pass 2's parameters `$11` to `$14`: `n` entries, each of its placeholder's type. */
  lemma Pass2BindShape1(u: Pass2Columns, n: nat, j: nat)
    requires Pass2Sized(u, n) && 0 <= j < 4
    ensures var b := Pass2Binds(u);
      && |b| == 10 && ArrayLength(b[j]) == n
      && ArrayType(b[j]) == PlaceholderTypes[10 + j]
  {
    if j == 0 {
      assert PlaceholderTypes[10] == Int;
    } else if j == 1 {
      assert PlaceholderTypes[11] == Int;
    } else if j == 2 {
      assert PlaceholderTypes[12] == Int;
    } else {
      assert PlaceholderTypes[13] == Int;
    }
  }

  /** Shape of pass 2's parameters `$15` to `$17`: `n` entries, each of its placeholder's type. */
  lemma Pass2BindShape2(u: Pass2Columns, n: nat, j: nat)
    requires Pass2Sized(u, n) && 4 <= j < 7
    ensures var b := Pass2Binds(u);
      && |b| == 10 && ArrayLength(b[j]) == n
      && ArrayType(b[j]) == PlaceholderTypes[10 + j]
  {
    if j == 4 {
      assert PlaceholderTypes[14] == Int;
    } else if j == 5 {
      assert PlaceholderTypes[15] == Int;
    } else {
      assert PlaceholderTypes[16] == Int;
    }
  }

  /** Shape of pass 2's parameters `$18` to `$20`: `n` entries, each of its placeholder's type. */
  lemma Pass2BindShape3(u: Pass2Columns, n: nat, j: nat)
    requires Pass2Sized(u, n) && 7 <= j < 10
    ensures var b := Pass2Binds(u);
      && |b| == 10 && ArrayLength(b[j]) == n
      && ArrayType(b[j]) == PlaceholderTypes[10 + j]
  {
    if j == 7 {
      assert PlaceholderTypes[17] == Int;
    } else if j == 8 {
      assert PlaceholderTypes[18] == Float8Type;
    } else {
      assert PlaceholderTypes[19] == Int;
    }
  }

  /** Order of pass 2's parameters `$11` to `$14`: entry `i` is the field column 10 + `j` names. */
  lemma Pass2BindOrder1(u: Pass2Columns, i: nat, p: TempParticipant, j: nat)
    requires Pass2At(u, i, p) && 0 <= j < 4
    ensures var b := Pass2Binds(u);
      && |b| == 10 && i < ArrayLength(b[j])
      && ValueAt(b[j], i) == FieldOf(p, InsertColumns[10 + j])
  {
    if j == 0 {
      assert InsertColumns[10] == Kills;
    } else if j == 1 {
      assert InsertColumns[11] == Deaths;
    } else if j == 2 {
      assert InsertColumns[12] == Assists;
    } else {
      assert InsertColumns[13] == DamageDealtToChampions;
    }
  }

  /** Order of pass 2's parameters `$15` to `$17`: entry `i` is the field column 10 + `j` names. */
  lemma Pass2BindOrder2(u: Pass2Columns, i: nat, p: TempParticipant, j: nat)
    requires Pass2At(u, i, p) && 4 <= j < 7
    ensures var b := Pass2Binds(u);
      && |b| == 10 && i < ArrayLength(b[j])
      && ValueAt(b[j], i) == FieldOf(p, InsertColumns[10 + j])
  {
    if j == 4 {
      assert InsertColumns[14] == DamageTaken;
    } else if j == 5 {
      assert InsertColumns[15] == GoldEarned;
    } else {
      assert InsertColumns[16] == WardsPlaced;
    }
  }

  /** Order of pass 2's parameters `$18` to `$20`: entry `i` is the field column 10 + `j` names. */
  lemma Pass2BindOrder3(u: Pass2Columns, i: nat, p: TempParticipant, j: nat)
    requires Pass2At(u, i, p) && 7 <= j < 10
    ensures var b := Pass2Binds(u);
      && |b| == 10 && i < ArrayLength(b[j])
      && ValueAt(b[j], i) == FieldOf(p, InsertColumns[10 + j])
  {
    if j == 7 {
      assert InsertColumns[17] == Cs;
    } else if j == 8 {
      assert InsertColumns[18] == CsPerMinute;
    } else {
      assert InsertColumns[19] == DoubleKills;
    }
  }

  /**
   * Pass 2's parameters `$11` to `$20` have as many entries as the pass
   * has records, and the `j`-th has the element type of placeholder
   * `$(10 + j + 1)`.
   */
  lemma Pass2BindShape(u: Pass2Columns, n: nat, j: nat)
    requires Pass2Sized(u, n) && j < 10
    ensures var b := Pass2Binds(u);
      && |b| == 10 && ArrayLength(b[j]) == n
      && ArrayType(b[j]) == PlaceholderTypes[10 + j]
  {
    if j < 4 {
      Pass2BindShape1(u, n, j);
    } else if j < 7 {
      Pass2BindShape2(u, n, j);
    } else {
      Pass2BindShape3(u, n, j);
    }
  }

  /**
   * Pass 2's parameters `$11` to `$20`: the `j`-th of the pass holds, at
   * entry `i`, the field of `p` that column 10 + `j` of the column list names.
   */
  lemma Pass2BindOrder(u: Pass2Columns, i: nat, p: TempParticipant, j: nat)
    requires Pass2At(u, i, p) && j < 10
    ensures var b := Pass2Binds(u);
      && |b| == 10 && i < ArrayLength(b[j])
      && ValueAt(b[j], i) == FieldOf(p, InsertColumns[10 + j])
  {
    if j < 4 {
      Pass2BindOrder1(u, i, p, j);
    } else if j < 7 {
      Pass2BindOrder2(u, i, p, j);
    } else {
      Pass2BindOrder3(u, i, p, j);
    }
  }

  /** The vectors of the third `multiunzip` in `bulk_insert_lol_match_participants` (bulk_lol_match_participants.rs). */
  datatype Pass3Columns = Pass3Columns(
    tripleKills: seq<int>,
    quadraKills: seq<int>,
    pentaKills: seq<int>,
    perkDefenseIds: seq<int>,
    perkFlexIds: seq<int>,
    perkOffenseIds: seq<int>,
    perkPrimaryStyleIds: seq<int>,
    perkSubStyleIds: seq<int>,
    perkPrimarySelectionIds: seq<int>,
    perkPrimarySelection1Ids: seq<int>)

  /** Every vector of pass 3 has `n` entries. */
  predicate Pass3Sized(u: Pass3Columns, n: nat) {
    |u.tripleKills| == n
    && |u.quadraKills| == n
    && |u.pentaKills| == n
    && |u.perkDefenseIds| == n
    && |u.perkFlexIds| == n
    && |u.perkOffenseIds| == n
    && |u.perkPrimaryStyleIds| == n
    && |u.perkSubStyleIds| == n
    && |u.perkPrimarySelectionIds| == n
    && |u.perkPrimarySelection1Ids| == n
  }

  /**
   * Pass 3: each record is mapped to the tuple of its fields, and
   * `multiunzip` pushes each component onto its vector, in record order.
   */
  function UnzipPass3(ps: seq<TempParticipant>): (u: Pass3Columns)
    ensures Pass3Sized(u, |ps|)
    decreases |ps|
  {
    if |ps| == 0 then Pass3Columns([], [], [], [], [], [], [], [], [], [])
    else
      var u := UnzipPass3(ps[..|ps| - 1]);
      var p := ps[|ps| - 1];
      Pass3Columns(
        u.tripleKills + [p.tripleKills],
        u.quadraKills + [p.quadraKills],
        u.pentaKills + [p.pentaKills],
        u.perkDefenseIds + [p.perkDefenseId],
        u.perkFlexIds + [p.perkFlexId],
        u.perkOffenseIds + [p.perkOffenseId],
        u.perkPrimaryStyleIds + [p.perkPrimaryStyleId],
        u.perkSubStyleIds + [p.perkSubStyleId],
        u.perkPrimarySelectionIds + [p.perkPrimarySelectionId],
        u.perkPrimarySelection1Ids + [p.perkPrimarySelection1Id])
  }

  /** Entry `i` of every vector of pass 3 is the matching field of `p`. */
  predicate Pass3At(u: Pass3Columns, i: nat, p: TempParticipant) {
    i < |u.tripleKills| && u.tripleKills[i] == p.tripleKills
    && i < |u.quadraKills| && u.quadraKills[i] == p.quadraKills
    && i < |u.pentaKills| && u.pentaKills[i] == p.pentaKills
    && i < |u.perkDefenseIds| && u.perkDefenseIds[i] == p.perkDefenseId
    && i < |u.perkFlexIds| && u.perkFlexIds[i] == p.perkFlexId
    && i < |u.perkOffenseIds| && u.perkOffenseIds[i] == p.perkOffenseId
    && i < |u.perkPrimaryStyleIds| && u.perkPrimaryStyleIds[i] == p.perkPrimaryStyleId
    && i < |u.perkSubStyleIds| && u.perkSubStyleIds[i] == p.perkSubStyleId
    && i < |u.perkPrimarySelectionIds| && u.perkPrimarySelectionIds[i] == p.perkPrimarySelectionId
    && i < |u.perkPrimarySelection1Ids| && u.perkPrimarySelection1Ids[i] == p.perkPrimarySelection1Id
  }

  /** Pass 3 transposes: entry `i` of every vector is the matching field of record `i`. */
  lemma {:induction false} UnzipPass3At(ps: seq<TempParticipant>, i: nat)
    requires i < |ps|
    ensures Pass3At(UnzipPass3(ps), i, ps[i])
    decreases |ps|
  {
    if i < |ps| - 1 {
      assert ps[..|ps| - 1][i] == ps[i];
      UnzipPass3At(ps[..|ps| - 1], i);
    }
  }

  /** The `.bind` calls of pass 3's vectors, in call order. */
  function Pass3Binds(u: Pass3Columns): seq<SqlArray> {
    [
      IntArray(u.tripleKills),
      IntArray(u.quadraKills),
      IntArray(u.pentaKills),
      IntArray(u.perkDefenseIds),
      IntArray(u.perkFlexIds),
      IntArray(u.perkOffenseIds),
      IntArray(u.perkPrimaryStyleIds),
      IntArray(u.perkSubStyleIds),
      IntArray(u.perkPrimarySelectionIds),
      IntArray(u.perkPrimarySelection1Ids)]
  }

  /** Shape of pass 3's parameters `$21` to `$24`: `n` entries, each of its placeholder's type. */
  lemma Pass3BindShape1(u: Pass3Columns, n: nat, j: nat)
    requires Pass3Sized(u, n) && 0 <= j < 4
    ensures var b := Pass3Binds(u);
      && |b| == 10 && ArrayLength(b[j]) == n
      && ArrayType(b[j]) == PlaceholderTypes[20 + j]
  {
    if j == 0 {
      assert PlaceholderTypes[20] == Int;
    } else if j == 1 {
      assert PlaceholderTypes[21] == Int;
    } else if j == 2 {
      assert PlaceholderTypes[22] == Int;
    } else {
      assert PlaceholderTypes[23] == Int;
    }
  }

  /** Shape of pass 3's parameters `$25` to `$27`: `n` entries, each of its placeholder's type. */
  lemma Pass3BindShape2(u: Pass3Columns, n: nat, j: nat)
    requires Pass3Sized(u, n) && 4 <= j < 7
    ensures var b := Pass3Binds(u);
      && |b| == 10 && ArrayLength(b[j]) == n
      && ArrayType(b[j]) == PlaceholderTypes[20 + j]
  {
    if j == 4 {
      assert PlaceholderTypes[24] == Int;
    } else if j == 5 {
      assert PlaceholderTypes[25] == Int;
    } else {
      assert PlaceholderTypes[26] == Int;
    }
  }

  /** Shape of pass 3's parameters `$28` to `$30`: `n` entries, each of its placeholder's type. */
  lemma Pass3BindShape3(u: Pass3Columns, n: nat, j: nat)
    requires Pass3Sized(u, n) && 7 <= j < 10
    ensures var b := Pass3Binds(u);
      && |b| == 10 && ArrayLength(b[j]) == n
      && ArrayType(b[j]) == PlaceholderTypes[20 + j]
  {
    if j == 7 {
      assert PlaceholderTypes[27] == Int;
    } else if j == 8 {
      assert PlaceholderTypes[28] == Int;
    } else {
      assert PlaceholderTypes[29] == Int;
    }
  }

  /** Order of pass 3's parameters `$21` to `$24`: entry `i` is the field column 20 + `j` names. */
  lemma Pass3BindOrder1(u: Pass3Columns, i: nat, p: TempParticipant, j: nat)
    requires Pass3At(u, i, p) && 0 <= j < 4
    ensures var b := Pass3Binds(u);
      && |b| == 10 && i < ArrayLength(b[j])
      && ValueAt(b[j], i) == FieldOf(p, InsertColumns[20 + j])
  {
    if j == 0 {
      assert InsertColumns[20] == TripleKills;
    } else if j == 1 {
      assert InsertColumns[21] == QuadraKills;
    } else if j == 2 {
      assert InsertColumns[22] == PentaKills;
    } else {
      assert InsertColumns[23] == PerkDefenseId;
    }
  }

  /** Order of pass 3's parameters `$25` to `$27`: entry `i` is the field column 20 + `j` names. */
  lemma Pass3BindOrder2(u: Pass3Columns, i: nat, p: TempParticipant, j: nat)
    requires Pass3At(u, i, p) && 4 <= j < 7
    ensures var b := Pass3Binds(u);
      && |b| == 10 && i < ArrayLength(b[j])
      && ValueAt(b[j], i) == FieldOf(p, InsertColumns[20 + j])
  {
    if j == 4 {
      assert InsertColumns[24] == PerkFlexId;
    } else if j == 5 {
      assert InsertColumns[25] == PerkOffenseId;
    } else {
      assert InsertColumns[26] == PerkPrimaryStyleId;
    }
  }

  /** Order of pass 3's parameters `$28` to `$30`: entry `i` is the field column 20 + `j` names. */
  lemma Pass3BindOrder3(u: Pass3Columns, i: nat, p: TempParticipant, j: nat)
    requires Pass3At(u, i, p) && 7 <= j < 10
    ensures var b := Pass3Binds(u);
      && |b| == 10 && i < ArrayLength(b[j])
      && ValueAt(b[j], i) == FieldOf(p, InsertColumns[20 + j])
  {
    if j == 7 {
      assert InsertColumns[27] == PerkSubStyleId;
    } else if j == 8 {
      assert InsertColumns[28] == PerkPrimarySelectionId;
    } else {
      assert InsertColumns[29] == PerkPrimarySelection1Id;
    }
  }

  /**
   * Pass 3's parameters `$21` to `$30` have as many entries as the pass
   * has records, and the `j`-th has the element type of placeholder
   * `$(20 + j + 1)`.
   */
  lemma Pass3BindShape(u: Pass3Columns, n: nat, j: nat)
    requires Pass3Sized(u, n) && j < 10
    ensures var b := Pass3Binds(u);
      && |b| == 10 && ArrayLength(b[j]) == n
      && ArrayType(b[j]) == PlaceholderTypes[20 + j]
  {
    if j < 4 {
      Pass3BindShape1(u, n, j);
    } else if j < 7 {
      Pass3BindShape2(u, n, j);
    } else {
      Pass3BindShape3(u, n, j);
    }
  }

  /**
   * Pass 3's parameters `$21` to `$30`: the `j`-th of the pass holds, at
   * entry `i`, the field of `p` that column 20 + `j` of the column list names.
   */
  lemma Pass3BindOrder(u: Pass3Columns, i: nat, p: TempParticipant, j: nat)
    requires Pass3At(u, i, p) && j < 10
    ensures var b := Pass3Binds(u);
      && |b| == 10 && i < ArrayLength(b[j])
      && ValueAt(b[j], i) == FieldOf(p, InsertColumns[20 + j])
  {
    if j < 4 {
      Pass3BindOrder1(u, i, p, j);
    } else if j < 7 {
      Pass3BindOrder2(u, i, p, j);
    } else {
      Pass3BindOrder3(u, i, p, j);
    }
  }

  /** The vectors of the fourth `multiunzip` in `bulk_insert_lol_match_participants` (bulk_lol_match_participants.rs). */
  datatype Pass4Columns = Pass4Columns(
    perkPrimarySelection2Ids: seq<int>,
    perkPrimarySelection3Ids: seq<int>,
    perkSubSelection1Ids: seq<int>,
    perkSubSelection2Ids: seq<int>,
    item0Ids: seq<int>,
    item1Ids: seq<int>,
    item2Ids: seq<int>,
    item3Ids: seq<int>,
    item4Ids: seq<int>,
    item5Ids: seq<int>,
    item6Ids: seq<int>)

  /** Every vector of pass 4 has `n` entries. */
  predicate Pass4Sized(u: Pass4Columns, n: nat) {
    |u.perkPrimarySelection2Ids| == n
    && |u.perkPrimarySelection3Ids| == n
    && |u.perkSubSelection1Ids| == n
    && |u.perkSubSelection2Ids| == n
    && |u.item0Ids| == n
    && |u.item1Ids| == n
    && |u.item2Ids| == n
    && |u.item3Ids| == n
    && |u.item4Ids| == n
    && |u.item5Ids| == n
    && |u.item6Ids| == n
  }

  /**
   * Pass 4: each record is mapped to the tuple of its fields, and
   * `multiunzip` pushes each component onto its vector, in record order.
   */
  function UnzipPass4(ps: seq<TempParticipant>): (u: Pass4Columns)
    ensures Pass4Sized(u, |ps|)
    decreases |ps|
  {
    if |ps| == 0 then Pass4Columns([], [], [], [], [], [], [], [], [], [], [])
    else
      var u := UnzipPass4(ps[..|ps| - 1]);
      var p := ps[|ps| - 1];
      Pass4Columns(
        u.perkPrimarySelection2Ids + [p.perkPrimarySelection2Id],
        u.perkPrimarySelection3Ids + [p.perkPrimarySelection3Id],
        u.perkSubSelection1Ids + [p.perkSubSelection1Id],
        u.perkSubSelection2Ids + [p.perkSubSelection2Id],
        u.item0Ids + [p.item0Id],
        u.item1Ids + [p.item1Id],
        u.item2Ids + [p.item2Id],
        u.item3Ids + [p.item3Id],
        u.item4Ids + [p.item4Id],
        u.item5Ids + [p.item5Id],
        u.item6Ids + [p.item6Id])
  }

  /** Entry `i` of every vector of pass 4 is the matching field of `p`. */
  predicate Pass4At(u: Pass4Columns, i: nat, p: TempParticipant) {
    i < |u.perkPrimarySelection2Ids| && u.perkPrimarySelection2Ids[i] == p.perkPrimarySelection2Id
    && i < |u.perkPrimarySelection3Ids| && u.perkPrimarySelection3Ids[i] == p.perkPrimarySelection3Id
    && i < |u.perkSubSelection1Ids| && u.perkSubSelection1Ids[i] == p.perkSubSelection1Id
    && i < |u.perkSubSelection2Ids| && u.perkSubSelection2Ids[i] == p.perkSubSelection2Id
    && i < |u.item0Ids| && u.item0Ids[i] == p.item0Id
    && i < |u.item1Ids| && u.item1Ids[i] == p.item1Id
    && i < |u.item2Ids| && u.item2Ids[i] == p.item2Id
    && i < |u.item3Ids| && u.item3Ids[i] == p.item3Id
    && i < |u.item4Ids| && u.item4Ids[i] == p.item4Id
    && i < |u.item5Ids| && u.item5Ids[i] == p.item5Id
    && i < |u.item6Ids| && u.item6Ids[i] == p.item6Id
  }

  /** Pass 4 transposes: entry `i` of every vector is the matching field of record `i`. */
  lemma {:induction false} UnzipPass4At(ps: seq<TempParticipant>, i: nat)
    requires i < |ps|
    ensures Pass4At(UnzipPass4(ps), i, ps[i])
    decreases |ps|
  {
    if i < |ps| - 1 {
      assert ps[..|ps| - 1][i] == ps[i];
      UnzipPass4At(ps[..|ps| - 1], i);
    }
  }

  /** The `.bind` calls of pass 4's vectors, in call order. */
  function Pass4Binds(u: Pass4Columns): seq<SqlArray> {
    [
      IntArray(u.perkPrimarySelection2Ids),
      IntArray(u.perkPrimarySelection3Ids),
      IntArray(u.perkSubSelection1Ids),
      IntArray(u.perkSubSelection2Ids),
      IntArray(u.item0Ids),
      IntArray(u.item1Ids),
      IntArray(u.item2Ids),
      IntArray(u.item3Ids),
      IntArray(u.item4Ids),
      IntArray(u.item5Ids),
      IntArray(u.item6Ids)]
  }

  /** Shape of pass 4's parameters `$31` to `$34`: `n` entries, each of its placeholder's type. */
  lemma Pass4BindShape1(u: Pass4Columns, n: nat, j: nat)
    requires Pass4Sized(u, n) && 0 <= j < 4
    ensures var b := Pass4Binds(u);
      && |b| == 11 && ArrayLength(b[j]) == n
      && ArrayType(b[j]) == PlaceholderTypes[30 + j]
  {
    if j == 0 {
      assert PlaceholderTypes[30] == Int;
    } else if j == 1 {
      assert PlaceholderTypes[31] == Int;
    } else if j == 2 {
      assert PlaceholderTypes[32] == Int;
    } else {
      assert PlaceholderTypes[33] == Int;
    }
  }

  /** Shape of pass 4's parameters `$35` to `$37`: `n` entries, each of its placeholder's type. */
  lemma Pass4BindShape2(u: Pass4Columns, n: nat, j: nat)
    requires Pass4Sized(u, n) && 4 <= j < 7
    ensures var b := Pass4Binds(u);
      && |b| == 11 && ArrayLength(b[j]) == n
      && ArrayType(b[j]) == PlaceholderTypes[30 + j]
  {
    if j == 4 {
      assert PlaceholderTypes[34] == Int;
    } else if j == 5 {
      assert PlaceholderTypes[35] == Int;
    } else {
      assert PlaceholderTypes[36] == Int;
    }
  }

  /** Shape of pass 4's parameters `$38` to `$41`: `n` entries, each of its placeholder's type. */
  lemma Pass4BindShape3(u: Pass4Columns, n: nat, j: nat)
    requires Pass4Sized(u, n) && 7 <= j < 11
    ensures var b := Pass4Binds(u);
      && |b| == 11 && ArrayLength(b[j]) == n
      && ArrayType(b[j]) == PlaceholderTypes[30 + j]
  {
    if j == 7 {
      assert PlaceholderTypes[37] == Int;
    } else if j == 8 {
      assert PlaceholderTypes[38] == Int;
    } else if j == 9 {
      assert PlaceholderTypes[39] == Int;
    } else {
      assert PlaceholderTypes[40] == Int;
    }
  }

  /** Order of pass 4's parameters `$31` to `$34`: entry `i` is the field column 30 + `j` names. */
  lemma Pass4BindOrder1(u: Pass4Columns, i: nat, p: TempParticipant, j: nat)
    requires Pass4At(u, i, p) && 0 <= j < 4
    ensures var b := Pass4Binds(u);
      && |b| == 11 && i < ArrayLength(b[j])
      && ValueAt(b[j], i) == FieldOf(p, InsertColumns[30 + j])
  {
    if j == 0 {
      assert InsertColumns[30] == PerkPrimarySelection2Id;
    } else if j == 1 {
      assert InsertColumns[31] == PerkPrimarySelection3Id;
    } else if j == 2 {
      assert InsertColumns[32] == PerkSubSelection1Id;
    } else {
      assert InsertColumns[33] == PerkSubSelection2Id;
    }
  }

  /** Order of pass 4's parameters `$35` to `$37`: entry `i` is the field column 30 + `j` names. */
  lemma Pass4BindOrder2(u: Pass4Columns, i: nat, p: TempParticipant, j: nat)
    requires Pass4At(u, i, p) && 4 <= j < 7
    ensures var b := Pass4Binds(u);
      && |b| == 11 && i < ArrayLength(b[j])
      && ValueAt(b[j], i) == FieldOf(p, InsertColumns[30 + j])
  {
    if j == 4 {
      assert InsertColumns[34] == Item0Id;
    } else if j == 5 {
      assert InsertColumns[35] == Item1Id;
    } else {
      assert InsertColumns[36] == Item2Id;
    }
  }

  /** Order of pass 4's parameters `$38` to `$41`: entry `i` is the field column 30 + `j` names. */
  lemma Pass4BindOrder3(u: Pass4Columns, i: nat, p: TempParticipant, j: nat)
    requires Pass4At(u, i, p) && 7 <= j < 11
    ensures var b := Pass4Binds(u);
      && |b| == 11 && i < ArrayLength(b[j])
      && ValueAt(b[j], i) == FieldOf(p, InsertColumns[30 + j])
  {
    if j == 7 {
      assert InsertColumns[37] == Item3Id;
    } else if j == 8 {
      assert InsertColumns[38] == Item4Id;
    } else if j == 9 {
      assert InsertColumns[39] == Item5Id;
    } else {
      assert InsertColumns[40] == Item6Id;
    }
  }

  /**
   * Pass 4's parameters `$31` to `$41` have as many entries as the pass
   * has records, and the `j`-th has the element type of placeholder
   * `$(30 + j + 1)`.
   */
  lemma Pass4BindShape(u: Pass4Columns, n: nat, j: nat)
    requires Pass4Sized(u, n) && j < 11
    ensures var b := Pass4Binds(u);
      && |b| == 11 && ArrayLength(b[j]) == n
      && ArrayType(b[j]) == PlaceholderTypes[30 + j]
  {
    if j < 4 {
      Pass4BindShape1(u, n, j);
    } else if j < 7 {
      Pass4BindShape2(u, n, j);
    } else {
      Pass4BindShape3(u, n, j);
    }
  }

  /**
   * Pass 4's parameters `$31` to `$41`: the `j`-th of the pass holds, at
   * entry `i`, the field of `p` that column 30 + `j` of the column list names.
   */
  lemma Pass4BindOrder(u: Pass4Columns, i: nat, p: TempParticipant, j: nat)
    requires Pass4At(u, i, p) && j < 11
    ensures var b := Pass4Binds(u);
      && |b| == 11 && i < ArrayLength(b[j])
      && ValueAt(b[j], i) == FieldOf(p, InsertColumns[30 + j])
  {
    if j < 4 {
      Pass4BindOrder1(u, i, p, j);
    } else if j < 7 {
      Pass4BindOrder2(u, i, p, j);
    } else {
      Pass4BindOrder3(u, i, p, j);
    }
  }

  /** The 41 `.bind` arguments, in call order: `$1` .. `$41`. */
  function Binds(ps: seq<TempParticipant>): seq<SqlArray> {
    Pass1Binds(UnzipPass1(ps)) + Pass2Binds(UnzipPass2(ps)) + Pass3Binds(UnzipPass3(ps)) + Pass4Binds(UnzipPass4(ps))
  }

  /**
   * Column lengths and typing: every parameter has one entry per record,
   * and parameter `$(k+1)` has the element type its `UNNEST` placeholder
   * casts to.
   */
  lemma BindShape(ps: seq<TempParticipant>, k: nat)
    requires k < 41
    ensures |Binds(ps)| == 41
    ensures ArrayLength(Binds(ps)[k]) == |ps| && ArrayType(Binds(ps)[k]) == PlaceholderTypes[k]
  {
    var u1, u2, u3, u4 := UnzipPass1(ps), UnzipPass2(ps), UnzipPass3(ps), UnzipPass4(ps);
    assert |Pass1Binds(u1)| == |Pass2Binds(u2)| == |Pass3Binds(u3)| == 10 && |Pass4Binds(u4)| == 11;
    if k < 10 {
      Pass1BindShape(u1, |ps|, k);
    } else if k < 20 {
      Pass2BindShape(u2, |ps|, k - 10);
    } else if k < 30 {
      Pass3BindShape(u3, |ps|, k - 20);
    } else {
      Pass4BindShape(u4, |ps|, k - 30);
    }
  }

  /**
   * Bind order: parameter `$(k+1)` holds, at entry `i`, the field of record
   * `i` that column `k` of the `INSERT` list names.
   */
  lemma BindOrder(ps: seq<TempParticipant>, k: nat, i: nat)
    requires k < 41 && i < |ps|
    ensures |Binds(ps)| == 41 && i < ArrayLength(Binds(ps)[k])
    ensures ValueAt(Binds(ps)[k], i) == FieldOf(ps[i], InsertColumns[k])
  {
    var u1, u2, u3, u4 := UnzipPass1(ps), UnzipPass2(ps), UnzipPass3(ps), UnzipPass4(ps);
    UnzipPass1At(ps, i);
    UnzipPass2At(ps, i);
    UnzipPass3At(ps, i);
    UnzipPass4At(ps, i);
    assert |Pass1Binds(u1)| == |Pass2Binds(u2)| == |Pass3Binds(u3)| == 10 && |Pass4Binds(u4)| == 11;
    if k < 10 {
      Pass1BindOrder(u1, i, ps[i], k);
    } else if k < 20 {
      Pass2BindOrder(u2, i, ps[i], k - 10);
    } else if k < 30 {
      Pass3BindOrder(u3, i, ps[i], k - 20);
    } else {
      Pass4BindOrder(u4, i, ps[i], k - 30);
    }
  }

  /** Columns 0 to 6 of the list sit at their own `ColumnIndex`. */
  lemma ColumnPosition1(k: nat)
    requires 0 <= k < 7
    ensures ColumnIndex(InsertColumns[k]) == k
  {
    if k == 0 {
      assert InsertColumns[0] == ChampionId;
    } else if k == 1 {
      assert InsertColumns[1] == SummonerId;
    } else if k == 2 {
      assert InsertColumns[2] == LolMatchId;
    } else if k == 3 {
      assert InsertColumns[3] == SummonerSpell1Id;
    } else if k == 4 {
      assert InsertColumns[4] == SummonerSpell2Id;
    } else if k == 5 {
      assert InsertColumns[5] == TeamId;
    } else {
      assert InsertColumns[6] == Won;
    }
  }

  /** Columns 7 to 13 of the list sit at their own `ColumnIndex`. */
  lemma ColumnPosition2(k: nat)
    requires 7 <= k < 14
    ensures ColumnIndex(InsertColumns[k]) == k
  {
    if k == 7 {
      assert InsertColumns[7] == ChampLevel;
    } else if k == 8 {
      assert InsertColumns[8] == KillParticipation;
    } else if k == 9 {
      assert InsertColumns[9] == Kda;
    } else if k == 10 {
      assert InsertColumns[10] == Kills;
    } else if k == 11 {
      assert InsertColumns[11] == Deaths;
    } else if k == 12 {
      assert InsertColumns[12] == Assists;
    } else {
      assert InsertColumns[13] == DamageDealtToChampions;
    }
  }

  /** Columns 14 to 20 of the list sit at their own `ColumnIndex`. */
  lemma ColumnPosition3(k: nat)
    requires 14 <= k < 21
    ensures ColumnIndex(InsertColumns[k]) == k
  {
    if k == 14 {
      assert InsertColumns[14] == DamageTaken;
    } else if k == 15 {
      assert InsertColumns[15] == GoldEarned;
    } else if k == 16 {
      assert InsertColumns[16] == WardsPlaced;
    } else if k == 17 {
      assert InsertColumns[17] == Cs;
    } else if k == 18 {
      assert InsertColumns[18] == CsPerMinute;
    } else if k == 19 {
      assert InsertColumns[19] == DoubleKills;
    } else {
      assert InsertColumns[20] == TripleKills;
    }
  }

  /** Columns 21 to 27 of the list sit at their own `ColumnIndex`. */
  lemma ColumnPosition4(k: nat)
    requires 21 <= k < 28
    ensures ColumnIndex(InsertColumns[k]) == k
  {
    if k == 21 {
      assert InsertColumns[21] == QuadraKills;
    } else if k == 22 {
      assert InsertColumns[22] == PentaKills;
    } else if k == 23 {
      assert InsertColumns[23] == PerkDefenseId;
    } else if k == 24 {
      assert InsertColumns[24] == PerkFlexId;
    } else if k == 25 {
      assert InsertColumns[25] == PerkOffenseId;
    } else if k == 26 {
      assert InsertColumns[26] == PerkPrimaryStyleId;
    } else {
      assert InsertColumns[27] == PerkSubStyleId;
    }
  }

  /** Columns 28 to 34 of the list sit at their own `ColumnIndex`. */
  lemma ColumnPosition5(k: nat)
    requires 28 <= k < 35
    ensures ColumnIndex(InsertColumns[k]) == k
  {
    if k == 28 {
      assert InsertColumns[28] == PerkPrimarySelectionId;
    } else if k == 29 {
      assert InsertColumns[29] == PerkPrimarySelection1Id;
    } else if k == 30 {
      assert InsertColumns[30] == PerkPrimarySelection2Id;
    } else if k == 31 {
      assert InsertColumns[31] == PerkPrimarySelection3Id;
    } else if k == 32 {
      assert InsertColumns[32] == PerkSubSelection1Id;
    } else if k == 33 {
      assert InsertColumns[33] == PerkSubSelection2Id;
    } else {
      assert InsertColumns[34] == Item0Id;
    }
  }

  /** Columns 35 to 40 of the list sit at their own `ColumnIndex`. */
  lemma ColumnPosition6(k: nat)
    requires 35 <= k < 41
    ensures ColumnIndex(InsertColumns[k]) == k
  {
    if k == 35 {
      assert InsertColumns[35] == Item1Id;
    } else if k == 36 {
      assert InsertColumns[36] == Item2Id;
    } else if k == 37 {
      assert InsertColumns[37] == Item3Id;
    } else if k == 38 {
      assert InsertColumns[38] == Item4Id;
    } else if k == 39 {
      assert InsertColumns[39] == Item5Id;
    } else {
      assert InsertColumns[40] == Item6Id;
    }
  }

  /** The column list names every column exactly once, at the position `ColumnIndex` gives. */
  lemma ColumnListIndex(c: Column)
    ensures InsertColumns[ColumnIndex(c)] == c
    ensures forall k | 0 <= k < 41 && InsertColumns[k] == c :: k == ColumnIndex(c)
  {
    forall k | 0 <= k < 41
      ensures ColumnIndex(InsertColumns[k]) == k
    {
      ColumnPosition(k);
    }
    var k := ColumnIndex(c);
    if k < 7 {
      ColumnListIndex1(c);
    } else if k < 14 {
      ColumnListIndex2(c);
    } else if k < 21 {
      ColumnListIndex3(c);
    } else if k < 28 {
      ColumnListIndex4(c);
    } else if k < 35 {
      ColumnListIndex5(c);
    } else {
      ColumnListIndex6(c);
    }
  }

  /** Columns 0 to 6 are named at their own `ColumnIndex`. */
  lemma ColumnListIndex1(c: Column)
    requires 0 <= ColumnIndex(c) < 7
    ensures InsertColumns[ColumnIndex(c)] == c
  {
    match c
    case ChampionId => assert InsertColumns[0] == ChampionId;
    case SummonerId => assert InsertColumns[1] == SummonerId;
    case LolMatchId => assert InsertColumns[2] == LolMatchId;
    case SummonerSpell1Id => assert InsertColumns[3] == SummonerSpell1Id;
    case SummonerSpell2Id => assert InsertColumns[4] == SummonerSpell2Id;
    case TeamId => assert InsertColumns[5] == TeamId;
    case Won => assert InsertColumns[6] == Won;
    case _ => assert false;
  }

  /** Columns 7 to 13 are named at their own `ColumnIndex`. */
  lemma ColumnListIndex2(c: Column)
    requires 7 <= ColumnIndex(c) < 14
    ensures InsertColumns[ColumnIndex(c)] == c
  {
    match c
    case ChampLevel => assert InsertColumns[7] == ChampLevel;
    case KillParticipation => assert InsertColumns[8] == KillParticipation;
    case Kda => assert InsertColumns[9] == Kda;
    case Kills => assert InsertColumns[10] == Kills;
    case Deaths => assert InsertColumns[11] == Deaths;
    case Assists => assert InsertColumns[12] == Assists;
    case DamageDealtToChampions => assert InsertColumns[13] == DamageDealtToChampions;
    case _ => assert false;
  }

  /** Columns 14 to 20 are named at their own `ColumnIndex`. */
  lemma ColumnListIndex3(c: Column)
    requires 14 <= ColumnIndex(c) < 21
    ensures InsertColumns[ColumnIndex(c)] == c
  {
    match c
    case DamageTaken => assert InsertColumns[14] == DamageTaken;
    case GoldEarned => assert InsertColumns[15] == GoldEarned;
    case WardsPlaced => assert InsertColumns[16] == WardsPlaced;
    case Cs => assert InsertColumns[17] == Cs;
    case CsPerMinute => assert InsertColumns[18] == CsPerMinute;
    case DoubleKills => assert InsertColumns[19] == DoubleKills;
    case TripleKills => assert InsertColumns[20] == TripleKills;
    case _ => assert false;
  }

  /** Columns 21 to 27 are named at their own `ColumnIndex`. */
  lemma ColumnListIndex4(c: Column)
    requires 21 <= ColumnIndex(c) < 28
    ensures InsertColumns[ColumnIndex(c)] == c
  {
    match c
    case QuadraKills => assert InsertColumns[21] == QuadraKills;
    case PentaKills => assert InsertColumns[22] == PentaKills;
    case PerkDefenseId => assert InsertColumns[23] == PerkDefenseId;
    case PerkFlexId => assert InsertColumns[24] == PerkFlexId;
    case PerkOffenseId => assert InsertColumns[25] == PerkOffenseId;
    case PerkPrimaryStyleId => assert InsertColumns[26] == PerkPrimaryStyleId;
    case PerkSubStyleId => assert InsertColumns[27] == PerkSubStyleId;
    case _ => assert false;
  }

  /** Columns 28 to 34 are named at their own `ColumnIndex`. */
  lemma ColumnListIndex5(c: Column)
    requires 28 <= ColumnIndex(c) < 35
    ensures InsertColumns[ColumnIndex(c)] == c
  {
    match c
    case PerkPrimarySelectionId => assert InsertColumns[28] == PerkPrimarySelectionId;
    case PerkPrimarySelection1Id => assert InsertColumns[29] == PerkPrimarySelection1Id;
    case PerkPrimarySelection2Id => assert InsertColumns[30] == PerkPrimarySelection2Id;
    case PerkPrimarySelection3Id => assert InsertColumns[31] == PerkPrimarySelection3Id;
    case PerkSubSelection1Id => assert InsertColumns[32] == PerkSubSelection1Id;
    case PerkSubSelection2Id => assert InsertColumns[33] == PerkSubSelection2Id;
    case Item0Id => assert InsertColumns[34] == Item0Id;
    case _ => assert false;
  }

  /** Columns 35 to 40 are named at their own `ColumnIndex`. */
  lemma ColumnListIndex6(c: Column)
    requires 35 <= ColumnIndex(c) < 41
    ensures InsertColumns[ColumnIndex(c)] == c
  {
    match c
    case Item1Id => assert InsertColumns[35] == Item1Id;
    case Item2Id => assert InsertColumns[36] == Item2Id;
    case Item3Id => assert InsertColumns[37] == Item3Id;
    case Item4Id => assert InsertColumns[38] == Item4Id;
    case Item5Id => assert InsertColumns[39] == Item5Id;
    case Item6Id => assert InsertColumns[40] == Item6Id;
    case _ => assert false;
  }

  /** Column `k` of the list sits at `ColumnIndex` `k`. */
  lemma ColumnPosition(k: nat)
    requires k < 41
    ensures ColumnIndex(InsertColumns[k]) == k
  {
    if k < 7 {
      ColumnPosition1(k);
    } else if k < 14 {
      ColumnPosition2(k);
    } else if k < 21 {
      ColumnPosition3(k);
    } else if k < 28 {
      ColumnPosition4(k);
    } else if k < 35 {
      ColumnPosition5(k);
    } else {
      ColumnPosition6(k);
    }
  }

  /** No column appears twice in the column list. */
  lemma ColumnListDistinct(j: nat, k: nat)
    requires j < k < 41
    ensures InsertColumns[j] != InsertColumns[k]
  {
    ColumnPosition(j);
    ColumnPosition(k);
  }


  /**
   * Keyed bind alignment: the parameter at a column's position holds that
   * column's field of every record, in record order.
   */
  lemma BindsAligned(ps: seq<TempParticipant>, c: Column, i: nat)
    requires i < |ps|
    ensures |Binds(ps)| == 41 && i < ArrayLength(Binds(ps)[ColumnIndex(c)])
    ensures ValueAt(Binds(ps)[ColumnIndex(c)], i) == FieldOf(ps[i], c)
  {
    BindOrder(ps, ColumnIndex(c), i);
    ColumnListIndex(c);
  }

  /** Whether a value can be stored in a column of type `t`; `NULL` fits every type. */
  predicate HasType(v: SqlValue, t: SqlType) {
    match v
    case IntValue(_) => t == Int
    case BoolValue(_) => t == Bool
    case Float8Value(_) => t == Float8Type
    case Null => true
  }

  /**
   * Placeholder typing: `won` is cast to `BOOL[]`, the three ratios to
   * `FLOAT8[]`, every other column to `INT[]`, and each cast fits the
   * record field it receives.
   */
  lemma PlaceholderTyping(p: TempParticipant, c: Column)
    ensures PlaceholderTypes[ColumnIndex(c)] == Bool <==> c == Won
    ensures PlaceholderTypes[ColumnIndex(c)] == Float8Type <==> c in {KillParticipation, Kda, CsPerMinute}
    ensures FieldOf(p, c) != Null && HasType(FieldOf(p, c), PlaceholderTypes[ColumnIndex(c)])
  {
    var k := ColumnIndex(c);
    if k < 7 {
      PlaceholderTyping1(p, c);
    } else if k < 14 {
      PlaceholderTyping2(p, c);
    } else if k < 21 {
      PlaceholderTyping3(p, c);
    } else if k < 28 {
      PlaceholderTyping4(p, c);
    } else if k < 35 {
      PlaceholderTyping5(p, c);
    } else {
      PlaceholderTyping6(p, c);
    }
  }

  /** Placeholder typing of columns 0 to 6. */
  lemma PlaceholderTyping1(p: TempParticipant, c: Column)
    requires 0 <= ColumnIndex(c) < 7
    ensures PlaceholderTypes[ColumnIndex(c)] == Bool <==> c == Won
    ensures PlaceholderTypes[ColumnIndex(c)] == Float8Type <==> c in {KillParticipation, Kda, CsPerMinute}
    ensures FieldOf(p, c) != Null && HasType(FieldOf(p, c), PlaceholderTypes[ColumnIndex(c)])
  {
    match c
    case ChampionId => assert PlaceholderTypes[0] == Int;
    case SummonerId => assert PlaceholderTypes[1] == Int;
    case LolMatchId => assert PlaceholderTypes[2] == Int;
    case SummonerSpell1Id => assert PlaceholderTypes[3] == Int;
    case SummonerSpell2Id => assert PlaceholderTypes[4] == Int;
    case TeamId => assert PlaceholderTypes[5] == Int;
    case Won => assert PlaceholderTypes[6] == Bool;
    case _ => assert false;
  }

  /** Placeholder typing of columns 7 to 13. */
  lemma PlaceholderTyping2(p: TempParticipant, c: Column)
    requires 7 <= ColumnIndex(c) < 14
    ensures PlaceholderTypes[ColumnIndex(c)] == Bool <==> c == Won
    ensures PlaceholderTypes[ColumnIndex(c)] == Float8Type <==> c in {KillParticipation, Kda, CsPerMinute}
    ensures FieldOf(p, c) != Null && HasType(FieldOf(p, c), PlaceholderTypes[ColumnIndex(c)])
  {
    match c
    case ChampLevel => assert PlaceholderTypes[7] == Int;
    case KillParticipation => assert PlaceholderTypes[8] == Float8Type;
    case Kda => assert PlaceholderTypes[9] == Float8Type;
    case Kills => assert PlaceholderTypes[10] == Int;
    case Deaths => assert PlaceholderTypes[11] == Int;
    case Assists => assert PlaceholderTypes[12] == Int;
    case DamageDealtToChampions => assert PlaceholderTypes[13] == Int;
    case _ => assert false;
  }

  /** Placeholder typing of columns 14 to 20. */
  lemma PlaceholderTyping3(p: TempParticipant, c: Column)
    requires 14 <= ColumnIndex(c) < 21
    ensures PlaceholderTypes[ColumnIndex(c)] == Bool <==> c == Won
    ensures PlaceholderTypes[ColumnIndex(c)] == Float8Type <==> c in {KillParticipation, Kda, CsPerMinute}
    ensures FieldOf(p, c) != Null && HasType(FieldOf(p, c), PlaceholderTypes[ColumnIndex(c)])
  {
    match c
    case DamageTaken => assert PlaceholderTypes[14] == Int;
    case GoldEarned => assert PlaceholderTypes[15] == Int;
    case WardsPlaced => assert PlaceholderTypes[16] == Int;
    case Cs => assert PlaceholderTypes[17] == Int;
    case CsPerMinute => assert PlaceholderTypes[18] == Float8Type;
    case DoubleKills => assert PlaceholderTypes[19] == Int;
    case TripleKills => assert PlaceholderTypes[20] == Int;
    case _ => assert false;
  }

  /** Placeholder typing of columns 21 to 27. */
  lemma PlaceholderTyping4(p: TempParticipant, c: Column)
    requires 21 <= ColumnIndex(c) < 28
    ensures PlaceholderTypes[ColumnIndex(c)] == Bool <==> c == Won
    ensures PlaceholderTypes[ColumnIndex(c)] == Float8Type <==> c in {KillParticipation, Kda, CsPerMinute}
    ensures FieldOf(p, c) != Null && HasType(FieldOf(p, c), PlaceholderTypes[ColumnIndex(c)])
  {
    match c
    case QuadraKills => assert PlaceholderTypes[21] == Int;
    case PentaKills => assert PlaceholderTypes[22] == Int;
    case PerkDefenseId => assert PlaceholderTypes[23] == Int;
    case PerkFlexId => assert PlaceholderTypes[24] == Int;
    case PerkOffenseId => assert PlaceholderTypes[25] == Int;
    case PerkPrimaryStyleId => assert PlaceholderTypes[26] == Int;
    case PerkSubStyleId => assert PlaceholderTypes[27] == Int;
    case _ => assert false;
  }

  /** Placeholder typing of columns 28 to 34. */
  lemma PlaceholderTyping5(p: TempParticipant, c: Column)
    requires 28 <= ColumnIndex(c) < 35
    ensures PlaceholderTypes[ColumnIndex(c)] == Bool <==> c == Won
    ensures PlaceholderTypes[ColumnIndex(c)] == Float8Type <==> c in {KillParticipation, Kda, CsPerMinute}
    ensures FieldOf(p, c) != Null && HasType(FieldOf(p, c), PlaceholderTypes[ColumnIndex(c)])
  {
    match c
    case PerkPrimarySelectionId => assert PlaceholderTypes[28] == Int;
    case PerkPrimarySelection1Id => assert PlaceholderTypes[29] == Int;
    case PerkPrimarySelection2Id => assert PlaceholderTypes[30] == Int;
    case PerkPrimarySelection3Id => assert PlaceholderTypes[31] == Int;
    case PerkSubSelection1Id => assert PlaceholderTypes[32] == Int;
    case PerkSubSelection2Id => assert PlaceholderTypes[33] == Int;
    case Item0Id => assert PlaceholderTypes[34] == Int;
    case _ => assert false;
  }

  /** Placeholder typing of columns 35 to 40. */
  lemma PlaceholderTyping6(p: TempParticipant, c: Column)
    requires 35 <= ColumnIndex(c) < 41
    ensures PlaceholderTypes[ColumnIndex(c)] == Bool <==> c == Won
    ensures PlaceholderTypes[ColumnIndex(c)] == Float8Type <==> c in {KillParticipation, Kda, CsPerMinute}
    ensures FieldOf(p, c) != Null && HasType(FieldOf(p, c), PlaceholderTypes[ColumnIndex(c)])
  {
    match c
    case Item1Id => assert PlaceholderTypes[35] == Int;
    case Item2Id => assert PlaceholderTypes[36] == Int;
    case Item3Id => assert PlaceholderTypes[37] == Int;
    case Item4Id => assert PlaceholderTypes[38] == Int;
    case Item5Id => assert PlaceholderTypes[39] == Int;
    case Item6Id => assert PlaceholderTypes[40] == Int;
    case _ => assert false;
  }

  /** A stored row of `lol_match_participants`: its cells in column-list order. */
  type ParticipantRow = seq<SqlValue>

  /** The stored value of a column. */
  function RowValue(row: ParticipantRow, c: Column): SqlValue
    requires |row| == 41
  {
    row[ColumnIndex(c)]
  }

  datatype InsertError =
    | BindCount(count: nat)        // the statement has 41 placeholders (model guard)
    | TypeMismatch(position: nat)  // parameter `$(position+1)` is not an array of its placeholder's type (model guard)
    | StoreError(message: string)  // a constraint or connection failure, reported by `execute`

  /** The longest parameter array: how many rows a multi-argument `UNNEST` yields. */
  function RowCount(binds: seq<SqlArray>): (n: nat)
    ensures forall k | 0 <= k < |binds| :: ArrayLength(binds[k]) <= n
    ensures |binds| > 0 ==> exists k | 0 <= k < |binds| :: ArrayLength(binds[k]) == n
  {
    if |binds| == 0 then 0
    else
      var rest := RowCount(binds[1..]);
      assert forall k | 1 <= k < |binds| :: binds[1..][k - 1] == binds[k];
      if ArrayLength(binds[0]) >= rest then ArrayLength(binds[0]) else rest
  }

  /** Row `i` of `UNNEST`'s output: entry `i` of each array, `NULL` past an array's end. */
  function Cell(a: SqlArray, i: nat): SqlValue {
    if i < ArrayLength(a) then ValueAt(a, i) else Null
  }

  /** The first parameter, from `k` on, whose element type is not its placeholder's. */
  function FirstMismatch(binds: seq<SqlArray>, k: nat): (r: Option<nat>)
    requires |binds| == 41 && k <= 41
    ensures r.None? <==> forall j | k <= j < 41 :: ArrayType(binds[j]) == PlaceholderTypes[j]
    ensures r.Some? ==> k <= r.value < 41 && ArrayType(binds[r.value]) != PlaceholderTypes[r.value]
    decreases 41 - k
  {
    if k == 41 then None
    else if ArrayType(binds[k]) != PlaceholderTypes[k] then Some(k)
    else FirstMismatch(binds, k + 1)
  }

  /**
   * `INSERT INTO lol_match_participants (...) SELECT * FROM UNNEST($1::INT[], ...)`
   * run against the stored rows: the statement appends one row per `UNNEST`
   * row or, on a store failure, fails as a whole. `BindCount` and
   * `TypeMismatch` are this model's own guard on the parameters, stricter
   * than the server (which would cast some element types, such as an
   * integer array into `BIGINT[]`); the one caller always passes it
   * (`BindsWellShaped`), so that guard never decides its outcome.
   */
  function InsertStatement(rows: seq<ParticipantRow>, binds: seq<SqlArray>, failure: Option<string>)
    : (r: Result<seq<ParticipantRow>, InsertError>)
    ensures r.Ok? <==> |binds| == 41 && failure.None?
                       && forall k | 0 <= k < 41 :: ArrayType(binds[k]) == PlaceholderTypes[k]
    ensures r.Ok? ==> |r.value| == |rows| + RowCount(binds) && r.value[..|rows|] == rows
  {
    if |binds| != 41 then Err(BindCount(|binds|))
    else
      match FirstMismatch(binds, 0)
      case Some(k) => Err(TypeMismatch(k))
      case None =>
        if failure.Some? then Err(StoreError(failure.value))
        else Ok(rows + seq(RowCount(binds), i requires 0 <= i => seq(41, k requires 0 <= k < 41 => Cell(binds[k], i))))
  }

  /** When every array has `n` entries, `UNNEST` yields `n` rows. */
  lemma {:induction false} RowCountUniform(binds: seq<SqlArray>, n: nat)
    requires |binds| > 0 && forall k | 0 <= k < |binds| :: ArrayLength(binds[k]) == n
    ensures RowCount(binds) == n
  {
  }

  /**
   * The bulk insert appends exactly one row per record, row `|rows| + i`
   * holding, in every column, that column's field of record `i`; the rows
   * already stored are unchanged.
   */
  lemma InsertedRowsMatch(rows: seq<ParticipantRow>, ps: seq<TempParticipant>, i: nat, c: Column)
    requires i < |ps|
    ensures var r := InsertStatement(rows, Binds(ps), None);
      && r.Ok? && |r.value| == |rows| + |ps| && r.value[..|rows|] == rows
      && |r.value[|rows| + i]| == 41 && RowValue(r.value[|rows| + i], c) == FieldOf(ps[i], c)
  {
    BindsWellShaped(ps);
    RowCountUniform(Binds(ps), |ps|);
    BindsAligned(ps, c, i);
  }

  /** With no store failure the statement succeeds and appends `|ps|` rows, none when there are no records. */
  lemma InsertSucceeds(rows: seq<ParticipantRow>, ps: seq<TempParticipant>)
    ensures var r := InsertStatement(rows, Binds(ps), None);
      r.Ok? && |r.value| == |rows| + |ps| && r.value[..|rows|] == rows
  {
    BindsWellShaped(ps);
    RowCountUniform(Binds(ps), |ps|);
  }

  /** A store failure is reported as an error and nothing is appended. */
  lemma InsertFailureIsTotal(rows: seq<ParticipantRow>, ps: seq<TempParticipant>, message: string)
    ensures InsertStatement(rows, Binds(ps), Some(message)) == Err(StoreError(message))
  {
    BindsWellShaped(ps);
  }

  /** Every parameter has `|ps|` entries and its placeholder's type. */
  lemma BindsWellShaped(ps: seq<TempParticipant>)
    ensures |Binds(ps)| == 41
    ensures forall k | 0 <= k < 41 :: ArrayLength(Binds(ps)[k]) == |ps| && ArrayType(Binds(ps)[k]) == PlaceholderTypes[k]
  {
    BindShape(ps, 0);
    forall k | 0 <= k < 41
      ensures ArrayLength(Binds(ps)[k]) == |ps| && ArrayType(Binds(ps)[k]) == PlaceholderTypes[k]
    {
      BindShape(ps, k);
    }
  }

  /** The `lol_match_participants` table. */
  class ParticipantTable {
    var rows: seq<ParticipantRow>

    constructor()
      ensures rows == []
    {
      rows := [];
    }

    /**
     * `bulk_insert_lol_match_participants`: four transposition passes, 41
     * binds in order, one `execute`; its error is returned as is and leaves
     * the table unchanged.
     */
    method BulkInsertLolMatchParticipants(participants: seq<TempParticipant>, failure: Option<string>)
      returns (r: Result<(), InsertError>)
      modifies this
      ensures var s := InsertStatement(old(rows), Binds(participants), failure);
        && (s.Ok? ==> r.Ok? && rows == s.value)
        && (s.Err? ==> r == Err(s.error) && rows == old(rows))
    {
      var pass1 := UnzipPass1(participants);
      var pass2 := UnzipPass2(participants);
      var pass3 := UnzipPass3(participants);
      var pass4 := UnzipPass4(participants);
      var binds := Pass1Binds(pass1) + Pass2Binds(pass2) + Pass3Binds(pass3) + Pass4Binds(pass4);
      var s := InsertStatement(rows, binds, failure);
      if s.Ok? {
        rows := s.value;
        r := Ok(());
      } else {
        r := Err(s.error);
      }
    }
  }
}
