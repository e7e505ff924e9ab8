/**
 * The rune ("perk") table: a `#[repr(u16)]` enum with explicit
 * discriminants, its `From<u16>` lookup and its `Display` strings.
 */
module Perks {
  import opened Ints

  /** The variants, in declaration order. */
  datatype Perk =
    UNKNOWN
    | StatsHealScaling
    | StatsArmor
    | StatsMagicResist
    | StatsAttackSpeed
    | StatsAbilityHaste
    | StatsAdaptiveForce
    | StatsMovementSpeed
    | StatsHealth
    | StatsResistScaling
    | StatsTenacitySlowResist
    | Domination
    | Electrocute
    | DarkHarvest
    | HailOfBlades
    | CheapShot
    | TasteOfBlood
    | SuddenImpact
    | ZombieWard
    | GhostPoro
    | EyeballCollection
    | RavenousHunter
    | IngeniousHunter
    | RelentlessHunter
    | UltimateHunter
    | Inspiration
    | GlacialAugment
    | UnsealedSpellbook
    | FirstStrike
    | HextechFlashtraption
    | MagicalFootwear
    | CashBack
    | PerfectTiming
    | TimeWarpTonic
    | BiscuitDelivery
    | CosmicInsight
    | ApproachVelocity
    | JackOfAllTrades
    | Precision
    | PressTheAttack
    | LethalTempo
    | FleetFootwork
    | Conqueror
    | AbsorbLife
    | Triumph
    | PresenceOfMind
    | LegendAlacrity
    | LegendHaste
    | LegendBloodline
    | CoupDeGrace
    | CutDown
    | LastStand
    | Resolve
    | GraspOfTheUndying
    | Aftershock
    | Guardian
    | Demolish
    | FontOfLife
    | ShieldBash
    | Conditioning
    | SecondWind
    | BonePlating
    | Overgrowth
    | Revitalize
    | Unflinching
    | Sorcery
    | SummonAery
    | ArcaneComet
    | PhaseRush
    | NullifyingOrb
    | ManaflowBand
    | NimbusCloack
    | Transcendence
    | Celerity
    | AbsoluteFocus
    | Scorch
    | Waterwalking
    | GatheringStorm

  /** The declared discriminant, `perk as u16`. */
  function Discriminant(p: Perk): U16 {
    match p
    case UNKNOWN => 0
    case StatsHealScaling => 5001
    case StatsArmor => 5002
    case StatsMagicResist => 5003
    case StatsAttackSpeed => 5005
    case StatsAbilityHaste => 5007
    case StatsAdaptiveForce => 5008
    case StatsMovementSpeed => 5010
    case StatsHealth => 5011
    case StatsResistScaling => 5012
    case StatsTenacitySlowResist => 5013
    case Domination => 8100
    case Electrocute => 8112
    case DarkHarvest => 8128
    case HailOfBlades => 9923
    case CheapShot => 8126
    case TasteOfBlood => 8139
    case SuddenImpact => 8143
    case ZombieWard => 8136
    case GhostPoro => 8120
    case EyeballCollection => 8138
    case RavenousHunter => 8135
    case IngeniousHunter => 8134
    case RelentlessHunter => 8105
    case UltimateHunter => 8106
    case Inspiration => 8300
    case GlacialAugment => 8351
    case UnsealedSpellbook => 8360
    case FirstStrike => 8369
    case HextechFlashtraption => 8306
    case MagicalFootwear => 8304
    case CashBack => 8321
    case PerfectTiming => 8313
    case TimeWarpTonic => 8352
    case BiscuitDelivery => 8345
    case CosmicInsight => 8347
    case ApproachVelocity => 8410
    case JackOfAllTrades => 8316
    case Precision => 8000
    case PressTheAttack => 8005
    case LethalTempo => 8008
    case FleetFootwork => 8021
    case Conqueror => 8010
    case AbsorbLife => 9101
    case Triumph => 9111
    case PresenceOfMind => 8009
    case LegendAlacrity => 9104
    case LegendHaste => 9105
    case LegendBloodline => 9103
    case CoupDeGrace => 8014
    case CutDown => 8017
    case LastStand => 8299
    case Resolve => 8400
    case GraspOfTheUndying => 8437
    case Aftershock => 8439
    case Guardian => 8465
    case Demolish => 8446
    case FontOfLife => 8463
    case ShieldBash => 8401
    case Conditioning => 8429
    case SecondWind => 8444
    case BonePlating => 8473
    case Overgrowth => 8451
    case Revitalize => 8453
    case Unflinching => 8242
    case Sorcery => 8200
    case SummonAery => 8214
    case ArcaneComet => 8229
    case PhaseRush => 8230
    case NullifyingOrb => 8224
    case ManaflowBand => 8226
    case NimbusCloack => 8275
    case Transcendence => 8210
    case Celerity => 8234
    case AbsoluteFocus => 8233
    case Scorch => 8237
    case Waterwalking => 8232
    case GatheringStorm => 8236
  }

  /** Position of the variant in the enum declaration (UNKNOWN is 0). */
  function DeclarationIndex(p: Perk): nat {
    match p
    case UNKNOWN => 0
    case StatsHealScaling => 1
    case StatsArmor => 2
    case StatsMagicResist => 3
    case StatsAttackSpeed => 4
    case StatsAbilityHaste => 5
    case StatsAdaptiveForce => 6
    case StatsMovementSpeed => 7
    case StatsHealth => 8
    case StatsResistScaling => 9
    case StatsTenacitySlowResist => 10
    case Domination => 11
    case Electrocute => 12
    case DarkHarvest => 13
    case HailOfBlades => 14
    case CheapShot => 15
    case TasteOfBlood => 16
    case SuddenImpact => 17
    case ZombieWard => 18
    case GhostPoro => 19
    case EyeballCollection => 20
    case RavenousHunter => 21
    case IngeniousHunter => 22
    case RelentlessHunter => 23
    case UltimateHunter => 24
    case Inspiration => 25
    case GlacialAugment => 26
    case UnsealedSpellbook => 27
    case FirstStrike => 28
    case HextechFlashtraption => 29
    case MagicalFootwear => 30
    case CashBack => 31
    case PerfectTiming => 32
    case TimeWarpTonic => 33
    case BiscuitDelivery => 34
    case CosmicInsight => 35
    case ApproachVelocity => 36
    case JackOfAllTrades => 37
    case Precision => 38
    case PressTheAttack => 39
    case LethalTempo => 40
    case FleetFootwork => 41
    case Conqueror => 42
    case AbsorbLife => 43
    case Triumph => 44
    case PresenceOfMind => 45
    case LegendAlacrity => 46
    case LegendHaste => 47
    case LegendBloodline => 48
    case CoupDeGrace => 49
    case CutDown => 50
    case LastStand => 51
    case Resolve => 52
    case GraspOfTheUndying => 53
    case Aftershock => 54
    case Guardian => 55
    case Demolish => 56
    case FontOfLife => 57
    case ShieldBash => 58
    case Conditioning => 59
    case SecondWind => 60
    case BonePlating => 61
    case Overgrowth => 62
    case Revitalize => 63
    case Unflinching => 64
    case Sorcery => 65
    case SummonAery => 66
    case ArcaneComet => 67
    case PhaseRush => 68
    case NullifyingOrb => 69
    case ManaflowBand => 70
    case NimbusCloack => 71
    case Transcendence => 72
    case Celerity => 73
    case AbsoluteFocus => 74
    case Scorch => 75
    case Waterwalking => 76
    case GatheringStorm => 77
  }

  /** The variant identifier as declared. */
  function Name(p: Perk): string {
    match p
    case UNKNOWN => "UNKNOWN"
    case StatsHealScaling => "StatsHealScaling"
    case StatsArmor => "StatsArmor"
    case StatsMagicResist => "StatsMagicResist"
    case StatsAttackSpeed => "StatsAttackSpeed"
    case StatsAbilityHaste => "StatsAbilityHaste"
    case StatsAdaptiveForce => "StatsAdaptiveForce"
    case StatsMovementSpeed => "StatsMovementSpeed"
    case StatsHealth => "StatsHealth"
    case StatsResistScaling => "StatsResistScaling"
    case StatsTenacitySlowResist => "StatsTenacitySlowResist"
    case Domination => "Domination"
    case Electrocute => "Electrocute"
    case DarkHarvest => "DarkHarvest"
    case HailOfBlades => "HailOfBlades"
    case CheapShot => "CheapShot"
    case TasteOfBlood => "TasteOfBlood"
    case SuddenImpact => "SuddenImpact"
    case ZombieWard => "ZombieWard"
    case GhostPoro => "GhostPoro"
    case EyeballCollection => "EyeballCollection"
    case RavenousHunter => "RavenousHunter"
    case IngeniousHunter => "IngeniousHunter"
    case RelentlessHunter => "RelentlessHunter"
    case UltimateHunter => "UltimateHunter"
    case Inspiration => "Inspiration"
    case GlacialAugment => "GlacialAugment"
    case UnsealedSpellbook => "UnsealedSpellbook"
    case FirstStrike => "FirstStrike"
    case HextechFlashtraption => "HextechFlashtraption"
    case MagicalFootwear => "MagicalFootwear"
    case CashBack => "CashBack"
    case PerfectTiming => "PerfectTiming"
    case TimeWarpTonic => "TimeWarpTonic"
    case BiscuitDelivery => "BiscuitDelivery"
    case CosmicInsight => "CosmicInsight"
    case ApproachVelocity => "ApproachVelocity"
    case JackOfAllTrades => "JackOfAllTrades"
    case Precision => "Precision"
    case PressTheAttack => "PressTheAttack"
    case LethalTempo => "LethalTempo"
    case FleetFootwork => "FleetFootwork"
    case Conqueror => "Conqueror"
    case AbsorbLife => "AbsorbLife"
    case Triumph => "Triumph"
    case PresenceOfMind => "PresenceOfMind"
    case LegendAlacrity => "LegendAlacrity"
    case LegendHaste => "LegendHaste"
    case LegendBloodline => "LegendBloodline"
    case CoupDeGrace => "CoupDeGrace"
    case CutDown => "CutDown"
    case LastStand => "LastStand"
    case Resolve => "Resolve"
    case GraspOfTheUndying => "GraspOfTheUndying"
    case Aftershock => "Aftershock"
    case Guardian => "Guardian"
    case Demolish => "Demolish"
    case FontOfLife => "FontOfLife"
    case ShieldBash => "ShieldBash"
    case Conditioning => "Conditioning"
    case SecondWind => "SecondWind"
    case BonePlating => "BonePlating"
    case Overgrowth => "Overgrowth"
    case Revitalize => "Revitalize"
    case Unflinching => "Unflinching"
    case Sorcery => "Sorcery"
    case SummonAery => "SummonAery"
    case ArcaneComet => "ArcaneComet"
    case PhaseRush => "PhaseRush"
    case NullifyingOrb => "NullifyingOrb"
    case ManaflowBand => "ManaflowBand"
    case NimbusCloack => "NimbusCloack"
    case Transcendence => "Transcendence"
    case Celerity => "Celerity"
    case AbsoluteFocus => "AbsoluteFocus"
    case Scorch => "Scorch"
    case Waterwalking => "Waterwalking"
    case GatheringStorm => "GatheringStorm"
  }

  /** The codes that `From<u16>` lists explicitly. */
  const ListedCodes: set<int> := {
    5001, 5002, 5003, 5005, 5007, 5008, 5010, 5011, 5012, 5013,
    8100, 8112, 8128, 9923, 8126, 8139, 8143, 8136, 8120, 8138,
    8135, 8134, 8105, 8106, 8300, 8351, 8360, 8369, 8306, 8304,
    8321, 8313, 8352, 8345, 8347, 8410, 8316, 8000
  }

  /** `Perk::from(v)`: one arm per listed code, UNKNOWN for every other value. */
  function FromU16(v: U16): Perk {
    match v
    case 5001 => StatsHealScaling
    case 5002 => StatsArmor
    case 5003 => StatsMagicResist
    case 5005 => StatsAttackSpeed
    case 5007 => StatsAbilityHaste
    case 5008 => StatsAdaptiveForce
    case 5010 => StatsMovementSpeed
    case 5011 => StatsHealth
    case 5012 => StatsResistScaling
    case 5013 => StatsTenacitySlowResist
    case 8100 => Domination
    case 8112 => Electrocute
    case 8128 => DarkHarvest
    case 9923 => HailOfBlades
    case 8126 => CheapShot
    case 8139 => TasteOfBlood
    case 8143 => SuddenImpact
    case 8136 => ZombieWard
    case 8120 => GhostPoro
    case 8138 => EyeballCollection
    case 8135 => RavenousHunter
    case 8134 => IngeniousHunter
    case 8105 => RelentlessHunter
    case 8106 => UltimateHunter
    case 8300 => Inspiration
    case 8351 => GlacialAugment
    case 8360 => UnsealedSpellbook
    case 8369 => FirstStrike
    case 8306 => HextechFlashtraption
    case 8304 => MagicalFootwear
    case 8321 => CashBack
    case 8313 => PerfectTiming
    case 8352 => TimeWarpTonic
    case 8345 => BiscuitDelivery
    case 8347 => CosmicInsight
    case 8410 => ApproachVelocity
    case 8316 => JackOfAllTrades
    case 8000 => Precision
    case _ => UNKNOWN
  }

  /** `perk.to_string()`, exactly as the display table spells it. */
  function Display(p: Perk): string {
    match p
    case UNKNOWN => "UNKNOWN"
    case StatsHealScaling => "StatsHealScaling"
    case StatsArmor => "StatsArmor "
    case StatsMagicResist => "StatsMagicResist"
    case StatsAttackSpeed => "StatsAttackSpeed "
    case StatsAbilityHaste => "StatsAbilityHaste"
    case StatsAdaptiveForce => "StatsAdaptiveForce "
    case StatsMovementSpeed => "StatsMovementSpeed"
    case StatsHealth => "StatsHealth "
    case StatsResistScaling => "StatsResistScaling"
    case StatsTenacitySlowResist => "StatsTenacitySlowResist "
    case Domination => "Domination"
    case Electrocute => "Electrocute "
    case DarkHarvest => "DarkHarvest"
    case HailOfBlades => "HailOfBlades "
    case CheapShot => "CheapShot"
    case TasteOfBlood => "TasteOfBlood "
    case SuddenImpact => "SuddenImpact"
    case ZombieWard => "ZombieWard "
    case GhostPoro => "GhostPoro"
    case EyeballCollection => "EyeballCollection "
    case RavenousHunter => "RavenousHunter"
    case IngeniousHunter => "IngeniousHunter "
    case RelentlessHunter => "RelentlessHunter"
    case UltimateHunter => "UltimateHunter "
    case Inspiration => "Inspiration"
    case GlacialAugment => "GlacialAugment "
    case UnsealedSpellbook => "UnsealedSpellbook"
    case FirstStrike => "FirstStrike "
    case HextechFlashtraption => "HextechFlashtraption"
    case MagicalFootwear => "MagicalFootwear "
    case CashBack => "CashBack"
    case PerfectTiming => "PerfectTiming "
    case TimeWarpTonic => "TimeWarpTonic"
    case BiscuitDelivery => "BiscuitDelivery "
    case CosmicInsight => "CosmicInsight"
    case ApproachVelocity => "ApproachVelocity "
    case JackOfAllTrades => "JackOfAllTrades"
    case Precision => "Precision "
    case PressTheAttack => "PressTheAttack"
    case LethalTempo => "LethalTempo "
    case FleetFootwork => "FleetFootwork"
    case Conqueror => "Conqueror "
    case AbsorbLife => "AbsorbLife"
    case Triumph => "Triumph "
    case PresenceOfMind => "PresenceOfMind"
    case LegendAlacrity => "LegendAlacrity "
    case LegendHaste => "LegendHaste"
    case LegendBloodline => "LegendBloodline "
    case CoupDeGrace => "CoupDeGrace"
    case CutDown => "CutDown "
    case LastStand => "LastStand"
    case Resolve => "Resolve "
    case GraspOfTheUndying => "GraspOfTheUndying"
    case Aftershock => "Aftershock "
    case Guardian => "Guardian"
    case Demolish => "Demolish "
    case FontOfLife => "FontOfLife"
    case ShieldBash => "ShieldBash "
    case Conditioning => "Conditioning"
    case SecondWind => "SecondWind "
    case BonePlating => "BonePlating"
    case Overgrowth => "Overgrowth "
    case Revitalize => "Revitalize"
    case Unflinching => "Unflinching "
    case Sorcery => "Sorcery"
    case SummonAery => "SummonAery "
    case ArcaneComet => "ArcaneComet"
    case PhaseRush => "PhaseRush "
    case NullifyingOrb => "NullifyingOrb"
    case ManaflowBand => "ManaflowBand "
    case NimbusCloack => "NimbusCloack"
    case Transcendence => "Transcendence "
    case Celerity => "Celerity"
    case AbsoluteFocus => "AbsoluteFocus "
    case Scorch => "Scorch"
    case Waterwalking => "Waterwalking "
    case GatheringStorm => "GatheringStorm"
  }

  /** Removes one trailing space, if there is one. */
  function TrimTrailingSpace(s: string): (r: string)
    ensures r == s || r + " " == s
  {
    if |s| > 0 && s[|s| - 1] == ' ' then s[..|s| - 1] else s
  }

  /** Zero, and every code the lookup does not list, give UNKNOWN. */
  lemma FromUnlisted(v: U16)
    requires v !in ListedCodes
    ensures FromU16(v) == UNKNOWN
  {
  }

  lemma FromZero()
    ensures 0 !in ListedCodes && FromU16(0) == UNKNOWN
  {
  }


  lemma FromListedPart1(v: U16)
    requires v in {5001, 5002, 5003, 5005, 5007, 5008, 5010}
    ensures FromU16(v) != UNKNOWN && Discriminant(FromU16(v)) == v
  {
  }

  lemma FromListedPart2(v: U16)
    requires v in {5011, 5012, 5013, 8100, 8112, 8128, 9923}
    ensures FromU16(v) != UNKNOWN && Discriminant(FromU16(v)) == v
  {
  }

  lemma FromListedPart3(v: U16)
    requires v in {8126, 8139, 8143, 8136, 8120, 8138, 8135}
    ensures FromU16(v) != UNKNOWN && Discriminant(FromU16(v)) == v
  {
  }

  lemma FromListedPart4(v: U16)
    requires v in {8134, 8105, 8106, 8300, 8351, 8360, 8369}
    ensures FromU16(v) != UNKNOWN && Discriminant(FromU16(v)) == v
  {
  }

  lemma FromListedPart5(v: U16)
    requires v in {8306, 8304, 8321, 8313, 8352, 8345, 8347}
    ensures FromU16(v) != UNKNOWN && Discriminant(FromU16(v)) == v
  {
  }

  lemma FromListedPart6(v: U16)
    requires v in {8410, 8316, 8000}
    ensures FromU16(v) != UNKNOWN && Discriminant(FromU16(v)) == v
  {
  }

  /** Each listed code gives the variant whose declared discriminant it is. */
  lemma FromListed(v: U16)
    requires v in ListedCodes
    ensures FromU16(v) != UNKNOWN && Discriminant(FromU16(v)) == v
  {
    if v in {5001, 5002, 5003, 5005, 5007, 5008, 5010} {
      FromListedPart1(v);
    } else if v in {5011, 5012, 5013, 8100, 8112, 8128, 9923} {
      FromListedPart2(v);
    } else if v in {8126, 8139, 8143, 8136, 8120, 8138, 8135} {
      FromListedPart3(v);
    } else if v in {8134, 8105, 8106, 8300, 8351, 8360, 8369} {
      FromListedPart4(v);
    } else if v in {8306, 8304, 8321, 8313, 8352, 8345, 8347} {
      FromListedPart5(v);
    } else {
      FromListedPart6(v);
    }
  }

  lemma FromDiscriminantPart1(p: Perk)
    requires DeclarationIndex(p) < 7
    ensures FromU16(Discriminant(p)) == p <==> DeclarationIndex(p) <= 38
    ensures DeclarationIndex(p) > 38 ==> FromU16(Discriminant(p)) == UNKNOWN
  {
    match p
    case UNKNOWN => assert FromU16(Discriminant(UNKNOWN)) == UNKNOWN;
    case StatsHealScaling => assert FromU16(Discriminant(StatsHealScaling)) == StatsHealScaling;
    case StatsArmor => assert FromU16(Discriminant(StatsArmor)) == StatsArmor;
    case StatsMagicResist => assert FromU16(Discriminant(StatsMagicResist)) == StatsMagicResist;
    case StatsAttackSpeed => assert FromU16(Discriminant(StatsAttackSpeed)) == StatsAttackSpeed;
    case StatsAbilityHaste => assert FromU16(Discriminant(StatsAbilityHaste)) == StatsAbilityHaste;
    case StatsAdaptiveForce => assert FromU16(Discriminant(StatsAdaptiveForce)) == StatsAdaptiveForce;
    case _ => assert false;
  }

  lemma FromDiscriminantPart2(p: Perk)
    requires 7 <= DeclarationIndex(p) && DeclarationIndex(p) < 14
    ensures FromU16(Discriminant(p)) == p <==> DeclarationIndex(p) <= 38
    ensures DeclarationIndex(p) > 38 ==> FromU16(Discriminant(p)) == UNKNOWN
  {
    match p
    case StatsMovementSpeed => assert FromU16(Discriminant(StatsMovementSpeed)) == StatsMovementSpeed;
    case StatsHealth => assert FromU16(Discriminant(StatsHealth)) == StatsHealth;
    case StatsResistScaling => assert FromU16(Discriminant(StatsResistScaling)) == StatsResistScaling;
    case StatsTenacitySlowResist => assert FromU16(Discriminant(StatsTenacitySlowResist)) == StatsTenacitySlowResist;
    case Domination => assert FromU16(Discriminant(Domination)) == Domination;
    case Electrocute => assert FromU16(Discriminant(Electrocute)) == Electrocute;
    case DarkHarvest => assert FromU16(Discriminant(DarkHarvest)) == DarkHarvest;
    case _ => assert false;
  }

  lemma FromDiscriminantPart3(p: Perk)
    requires 14 <= DeclarationIndex(p) && DeclarationIndex(p) < 21
    ensures FromU16(Discriminant(p)) == p <==> DeclarationIndex(p) <= 38
    ensures DeclarationIndex(p) > 38 ==> FromU16(Discriminant(p)) == UNKNOWN
  {
    match p
    case HailOfBlades => assert FromU16(Discriminant(HailOfBlades)) == HailOfBlades;
    case CheapShot => assert FromU16(Discriminant(CheapShot)) == CheapShot;
    case TasteOfBlood => assert FromU16(Discriminant(TasteOfBlood)) == TasteOfBlood;
    case SuddenImpact => assert FromU16(Discriminant(SuddenImpact)) == SuddenImpact;
    case ZombieWard => assert FromU16(Discriminant(ZombieWard)) == ZombieWard;
    case GhostPoro => assert FromU16(Discriminant(GhostPoro)) == GhostPoro;
    case EyeballCollection => assert FromU16(Discriminant(EyeballCollection)) == EyeballCollection;
    case _ => assert false;
  }

  lemma FromDiscriminantPart4(p: Perk)
    requires 21 <= DeclarationIndex(p) && DeclarationIndex(p) < 28
    ensures FromU16(Discriminant(p)) == p <==> DeclarationIndex(p) <= 38
    ensures DeclarationIndex(p) > 38 ==> FromU16(Discriminant(p)) == UNKNOWN
  {
    match p
    case RavenousHunter => assert FromU16(Discriminant(RavenousHunter)) == RavenousHunter;
    case IngeniousHunter => assert FromU16(Discriminant(IngeniousHunter)) == IngeniousHunter;
    case RelentlessHunter => assert FromU16(Discriminant(RelentlessHunter)) == RelentlessHunter;
    case UltimateHunter => assert FromU16(Discriminant(UltimateHunter)) == UltimateHunter;
    case Inspiration => assert FromU16(Discriminant(Inspiration)) == Inspiration;
    case GlacialAugment => assert FromU16(Discriminant(GlacialAugment)) == GlacialAugment;
    case UnsealedSpellbook => assert FromU16(Discriminant(UnsealedSpellbook)) == UnsealedSpellbook;
    case _ => assert false;
  }

  lemma FromDiscriminantPart5(p: Perk)
    requires 28 <= DeclarationIndex(p) && DeclarationIndex(p) < 35
    ensures FromU16(Discriminant(p)) == p <==> DeclarationIndex(p) <= 38
    ensures DeclarationIndex(p) > 38 ==> FromU16(Discriminant(p)) == UNKNOWN
  {
    match p
    case FirstStrike => assert FromU16(Discriminant(FirstStrike)) == FirstStrike;
    case HextechFlashtraption => assert FromU16(Discriminant(HextechFlashtraption)) == HextechFlashtraption;
    case MagicalFootwear => assert FromU16(Discriminant(MagicalFootwear)) == MagicalFootwear;
    case CashBack => assert FromU16(Discriminant(CashBack)) == CashBack;
    case PerfectTiming => assert FromU16(Discriminant(PerfectTiming)) == PerfectTiming;
    case TimeWarpTonic => assert FromU16(Discriminant(TimeWarpTonic)) == TimeWarpTonic;
    case BiscuitDelivery => assert FromU16(Discriminant(BiscuitDelivery)) == BiscuitDelivery;
    case _ => assert false;
  }

  lemma FromDiscriminantPart6(p: Perk)
    requires 35 <= DeclarationIndex(p) && DeclarationIndex(p) < 42
    ensures FromU16(Discriminant(p)) == p <==> DeclarationIndex(p) <= 38
    ensures DeclarationIndex(p) > 38 ==> FromU16(Discriminant(p)) == UNKNOWN
  {
    match p
    case CosmicInsight => assert FromU16(Discriminant(CosmicInsight)) == CosmicInsight;
    case ApproachVelocity => assert FromU16(Discriminant(ApproachVelocity)) == ApproachVelocity;
    case JackOfAllTrades => assert FromU16(Discriminant(JackOfAllTrades)) == JackOfAllTrades;
    case Precision => assert FromU16(Discriminant(Precision)) == Precision;
    case PressTheAttack => assert FromU16(Discriminant(PressTheAttack)) == UNKNOWN;
    case LethalTempo => assert FromU16(Discriminant(LethalTempo)) == UNKNOWN;
    case FleetFootwork => assert FromU16(Discriminant(FleetFootwork)) == UNKNOWN;
    case _ => assert false;
  }

  lemma FromDiscriminantPart7(p: Perk)
    requires 42 <= DeclarationIndex(p) && DeclarationIndex(p) < 49
    ensures FromU16(Discriminant(p)) == p <==> DeclarationIndex(p) <= 38
    ensures DeclarationIndex(p) > 38 ==> FromU16(Discriminant(p)) == UNKNOWN
  {
    match p
    case Conqueror => assert FromU16(Discriminant(Conqueror)) == UNKNOWN;
    case AbsorbLife => assert FromU16(Discriminant(AbsorbLife)) == UNKNOWN;
    case Triumph => assert FromU16(Discriminant(Triumph)) == UNKNOWN;
    case PresenceOfMind => assert FromU16(Discriminant(PresenceOfMind)) == UNKNOWN;
    case LegendAlacrity => assert FromU16(Discriminant(LegendAlacrity)) == UNKNOWN;
    case LegendHaste => assert FromU16(Discriminant(LegendHaste)) == UNKNOWN;
    case LegendBloodline => assert FromU16(Discriminant(LegendBloodline)) == UNKNOWN;
    case _ => assert false;
  }

  lemma FromDiscriminantPart8(p: Perk)
    requires 49 <= DeclarationIndex(p) && DeclarationIndex(p) < 56
    ensures FromU16(Discriminant(p)) == p <==> DeclarationIndex(p) <= 38
    ensures DeclarationIndex(p) > 38 ==> FromU16(Discriminant(p)) == UNKNOWN
  {
    match p
    case CoupDeGrace => assert FromU16(Discriminant(CoupDeGrace)) == UNKNOWN;
    case CutDown => assert FromU16(Discriminant(CutDown)) == UNKNOWN;
    case LastStand => assert FromU16(Discriminant(LastStand)) == UNKNOWN;
    case Resolve => assert FromU16(Discriminant(Resolve)) == UNKNOWN;
    case GraspOfTheUndying => assert FromU16(Discriminant(GraspOfTheUndying)) == UNKNOWN;
    case Aftershock => assert FromU16(Discriminant(Aftershock)) == UNKNOWN;
    case Guardian => assert FromU16(Discriminant(Guardian)) == UNKNOWN;
    case _ => assert false;
  }

  lemma FromDiscriminantPart9(p: Perk)
    requires 56 <= DeclarationIndex(p) && DeclarationIndex(p) < 63
    ensures FromU16(Discriminant(p)) == p <==> DeclarationIndex(p) <= 38
    ensures DeclarationIndex(p) > 38 ==> FromU16(Discriminant(p)) == UNKNOWN
  {
    match p
    case Demolish => assert FromU16(Discriminant(Demolish)) == UNKNOWN;
    case FontOfLife => assert FromU16(Discriminant(FontOfLife)) == UNKNOWN;
    case ShieldBash => assert FromU16(Discriminant(ShieldBash)) == UNKNOWN;
    case Conditioning => assert FromU16(Discriminant(Conditioning)) == UNKNOWN;
    case SecondWind => assert FromU16(Discriminant(SecondWind)) == UNKNOWN;
    case BonePlating => assert FromU16(Discriminant(BonePlating)) == UNKNOWN;
    case Overgrowth => assert FromU16(Discriminant(Overgrowth)) == UNKNOWN;
    case _ => assert false;
  }

  lemma FromDiscriminantPart10(p: Perk)
    requires 63 <= DeclarationIndex(p) && DeclarationIndex(p) < 70
    ensures FromU16(Discriminant(p)) == p <==> DeclarationIndex(p) <= 38
    ensures DeclarationIndex(p) > 38 ==> FromU16(Discriminant(p)) == UNKNOWN
  {
    match p
    case Revitalize => assert FromU16(Discriminant(Revitalize)) == UNKNOWN;
    case Unflinching => assert FromU16(Discriminant(Unflinching)) == UNKNOWN;
    case Sorcery => assert FromU16(Discriminant(Sorcery)) == UNKNOWN;
    case SummonAery => assert FromU16(Discriminant(SummonAery)) == UNKNOWN;
    case ArcaneComet => assert FromU16(Discriminant(ArcaneComet)) == UNKNOWN;
    case PhaseRush => assert FromU16(Discriminant(PhaseRush)) == UNKNOWN;
    case NullifyingOrb => assert FromU16(Discriminant(NullifyingOrb)) == UNKNOWN;
    case _ => assert false;
  }

  lemma FromDiscriminantPart11(p: Perk)
    requires 70 <= DeclarationIndex(p) && DeclarationIndex(p) < 77
    ensures FromU16(Discriminant(p)) == p <==> DeclarationIndex(p) <= 38
    ensures DeclarationIndex(p) > 38 ==> FromU16(Discriminant(p)) == UNKNOWN
  {
    match p
    case ManaflowBand => assert FromU16(Discriminant(ManaflowBand)) == UNKNOWN;
    case NimbusCloack => assert FromU16(Discriminant(NimbusCloack)) == UNKNOWN;
    case Transcendence => assert FromU16(Discriminant(Transcendence)) == UNKNOWN;
    case Celerity => assert FromU16(Discriminant(Celerity)) == UNKNOWN;
    case AbsoluteFocus => assert FromU16(Discriminant(AbsoluteFocus)) == UNKNOWN;
    case Scorch => assert FromU16(Discriminant(Scorch)) == UNKNOWN;
    case Waterwalking => assert FromU16(Discriminant(Waterwalking)) == UNKNOWN;
    case _ => assert false;
  }

  lemma FromDiscriminantPart12(p: Perk)
    requires 77 <= DeclarationIndex(p)
    ensures FromU16(Discriminant(p)) == p <==> DeclarationIndex(p) <= 38
    ensures DeclarationIndex(p) > 38 ==> FromU16(Discriminant(p)) == UNKNOWN
  {
    match p
    case GatheringStorm => assert FromU16(Discriminant(GatheringStorm)) == UNKNOWN;
    case _ => assert false;
  }

  /**
   * `Perk::from(p as u16) == p` exactly for UNKNOWN and the 38 variants
   * declared up to Precision; every variant declared after it comes back
   * as UNKNOWN.
   */
  lemma FromDiscriminant(p: Perk)
    ensures FromU16(Discriminant(p)) == p <==> DeclarationIndex(p) <= 38
    ensures DeclarationIndex(p) > 38 ==> FromU16(Discriminant(p)) == UNKNOWN
  {
    if DeclarationIndex(p) < 7 {
      FromDiscriminantPart1(p);
    } else if DeclarationIndex(p) < 14 {
      FromDiscriminantPart2(p);
    } else if DeclarationIndex(p) < 21 {
      FromDiscriminantPart3(p);
    } else if DeclarationIndex(p) < 28 {
      FromDiscriminantPart4(p);
    } else if DeclarationIndex(p) < 35 {
      FromDiscriminantPart5(p);
    } else if DeclarationIndex(p) < 42 {
      FromDiscriminantPart6(p);
    } else if DeclarationIndex(p) < 49 {
      FromDiscriminantPart7(p);
    } else if DeclarationIndex(p) < 56 {
      FromDiscriminantPart8(p);
    } else if DeclarationIndex(p) < 63 {
      FromDiscriminantPart9(p);
    } else if DeclarationIndex(p) < 70 {
      FromDiscriminantPart10(p);
    } else if DeclarationIndex(p) < 77 {
      FromDiscriminantPart11(p);
    } else {
      FromDiscriminantPart12(p);
    }
  }

  lemma DisplayIsNamePart1(p: Perk)
    requires DeclarationIndex(p) < 7
    ensures Display(p) != ""
    ensures TrimTrailingSpace(Display(p)) == Name(p)
  {
    match p
    case UNKNOWN => assert TrimTrailingSpace(Display(UNKNOWN)) == Name(UNKNOWN);
    case StatsHealScaling => assert TrimTrailingSpace(Display(StatsHealScaling)) == Name(StatsHealScaling);
    case StatsArmor => assert TrimTrailingSpace(Display(StatsArmor)) == Name(StatsArmor);
    case StatsMagicResist => assert TrimTrailingSpace(Display(StatsMagicResist)) == Name(StatsMagicResist);
    case StatsAttackSpeed => assert TrimTrailingSpace(Display(StatsAttackSpeed)) == Name(StatsAttackSpeed);
    case StatsAbilityHaste => assert TrimTrailingSpace(Display(StatsAbilityHaste)) == Name(StatsAbilityHaste);
    case StatsAdaptiveForce => assert TrimTrailingSpace(Display(StatsAdaptiveForce)) == Name(StatsAdaptiveForce);
    case _ => assert false;
  }

  lemma DisplayIsNamePart2(p: Perk)
    requires 7 <= DeclarationIndex(p) && DeclarationIndex(p) < 14
    ensures Display(p) != ""
    ensures TrimTrailingSpace(Display(p)) == Name(p)
  {
    match p
    case StatsMovementSpeed => assert TrimTrailingSpace(Display(StatsMovementSpeed)) == Name(StatsMovementSpeed);
    case StatsHealth => assert TrimTrailingSpace(Display(StatsHealth)) == Name(StatsHealth);
    case StatsResistScaling => assert TrimTrailingSpace(Display(StatsResistScaling)) == Name(StatsResistScaling);
    case StatsTenacitySlowResist => assert TrimTrailingSpace(Display(StatsTenacitySlowResist)) == Name(StatsTenacitySlowResist);
    case Domination => assert TrimTrailingSpace(Display(Domination)) == Name(Domination);
    case Electrocute => assert TrimTrailingSpace(Display(Electrocute)) == Name(Electrocute);
    case DarkHarvest => assert TrimTrailingSpace(Display(DarkHarvest)) == Name(DarkHarvest);
    case _ => assert false;
  }

  lemma DisplayIsNamePart3(p: Perk)
    requires 14 <= DeclarationIndex(p) && DeclarationIndex(p) < 21
    ensures Display(p) != ""
    ensures TrimTrailingSpace(Display(p)) == Name(p)
  {
    match p
    case HailOfBlades => assert TrimTrailingSpace(Display(HailOfBlades)) == Name(HailOfBlades);
    case CheapShot => assert TrimTrailingSpace(Display(CheapShot)) == Name(CheapShot);
    case TasteOfBlood => assert TrimTrailingSpace(Display(TasteOfBlood)) == Name(TasteOfBlood);
    case SuddenImpact => assert TrimTrailingSpace(Display(SuddenImpact)) == Name(SuddenImpact);
    case ZombieWard => assert TrimTrailingSpace(Display(ZombieWard)) == Name(ZombieWard);
    case GhostPoro => assert TrimTrailingSpace(Display(GhostPoro)) == Name(GhostPoro);
    case EyeballCollection => assert TrimTrailingSpace(Display(EyeballCollection)) == Name(EyeballCollection);
    case _ => assert false;
  }

  lemma DisplayIsNamePart4(p: Perk)
    requires 21 <= DeclarationIndex(p) && DeclarationIndex(p) < 28
    ensures Display(p) != ""
    ensures TrimTrailingSpace(Display(p)) == Name(p)
  {
    match p
    case RavenousHunter => assert TrimTrailingSpace(Display(RavenousHunter)) == Name(RavenousHunter);
    case IngeniousHunter => assert TrimTrailingSpace(Display(IngeniousHunter)) == Name(IngeniousHunter);
    case RelentlessHunter => assert TrimTrailingSpace(Display(RelentlessHunter)) == Name(RelentlessHunter);
    case UltimateHunter => assert TrimTrailingSpace(Display(UltimateHunter)) == Name(UltimateHunter);
    case Inspiration => assert TrimTrailingSpace(Display(Inspiration)) == Name(Inspiration);
    case GlacialAugment => assert TrimTrailingSpace(Display(GlacialAugment)) == Name(GlacialAugment);
    case UnsealedSpellbook => assert TrimTrailingSpace(Display(UnsealedSpellbook)) == Name(UnsealedSpellbook);
    case _ => assert false;
  }

  lemma DisplayIsNamePart5(p: Perk)
    requires 28 <= DeclarationIndex(p) && DeclarationIndex(p) < 35
    ensures Display(p) != ""
    ensures TrimTrailingSpace(Display(p)) == Name(p)
  {
    match p
    case FirstStrike => assert TrimTrailingSpace(Display(FirstStrike)) == Name(FirstStrike);
    case HextechFlashtraption => assert TrimTrailingSpace(Display(HextechFlashtraption)) == Name(HextechFlashtraption);
    case MagicalFootwear => assert TrimTrailingSpace(Display(MagicalFootwear)) == Name(MagicalFootwear);
    case CashBack => assert TrimTrailingSpace(Display(CashBack)) == Name(CashBack);
    case PerfectTiming => assert TrimTrailingSpace(Display(PerfectTiming)) == Name(PerfectTiming);
    case TimeWarpTonic => assert TrimTrailingSpace(Display(TimeWarpTonic)) == Name(TimeWarpTonic);
    case BiscuitDelivery => assert TrimTrailingSpace(Display(BiscuitDelivery)) == Name(BiscuitDelivery);
    case _ => assert false;
  }

  lemma DisplayIsNamePart6(p: Perk)
    requires 35 <= DeclarationIndex(p) && DeclarationIndex(p) < 42
    ensures Display(p) != ""
    ensures TrimTrailingSpace(Display(p)) == Name(p)
  {
    match p
    case CosmicInsight => assert TrimTrailingSpace(Display(CosmicInsight)) == Name(CosmicInsight);
    case ApproachVelocity => assert TrimTrailingSpace(Display(ApproachVelocity)) == Name(ApproachVelocity);
    case JackOfAllTrades => assert TrimTrailingSpace(Display(JackOfAllTrades)) == Name(JackOfAllTrades);
    case Precision => assert TrimTrailingSpace(Display(Precision)) == Name(Precision);
    case PressTheAttack => assert TrimTrailingSpace(Display(PressTheAttack)) == Name(PressTheAttack);
    case LethalTempo => assert TrimTrailingSpace(Display(LethalTempo)) == Name(LethalTempo);
    case FleetFootwork => assert TrimTrailingSpace(Display(FleetFootwork)) == Name(FleetFootwork);
    case _ => assert false;
  }

  lemma DisplayIsNamePart7(p: Perk)
    requires 42 <= DeclarationIndex(p) && DeclarationIndex(p) < 49
    ensures Display(p) != ""
    ensures TrimTrailingSpace(Display(p)) == Name(p)
  {
    match p
    case Conqueror => assert TrimTrailingSpace(Display(Conqueror)) == Name(Conqueror);
    case AbsorbLife => assert TrimTrailingSpace(Display(AbsorbLife)) == Name(AbsorbLife);
    case Triumph => assert TrimTrailingSpace(Display(Triumph)) == Name(Triumph);
    case PresenceOfMind => assert TrimTrailingSpace(Display(PresenceOfMind)) == Name(PresenceOfMind);
    case LegendAlacrity => assert TrimTrailingSpace(Display(LegendAlacrity)) == Name(LegendAlacrity);
    case LegendHaste => assert TrimTrailingSpace(Display(LegendHaste)) == Name(LegendHaste);
    case LegendBloodline => assert TrimTrailingSpace(Display(LegendBloodline)) == Name(LegendBloodline);
    case _ => assert false;
  }

  lemma DisplayIsNamePart8(p: Perk)
    requires 49 <= DeclarationIndex(p) && DeclarationIndex(p) < 56
    ensures Display(p) != ""
    ensures TrimTrailingSpace(Display(p)) == Name(p)
  {
    match p
    case CoupDeGrace => assert TrimTrailingSpace(Display(CoupDeGrace)) == Name(CoupDeGrace);
    case CutDown => assert TrimTrailingSpace(Display(CutDown)) == Name(CutDown);
    case LastStand => assert TrimTrailingSpace(Display(LastStand)) == Name(LastStand);
    case Resolve => assert TrimTrailingSpace(Display(Resolve)) == Name(Resolve);
    case GraspOfTheUndying => assert TrimTrailingSpace(Display(GraspOfTheUndying)) == Name(GraspOfTheUndying);
    case Aftershock => assert TrimTrailingSpace(Display(Aftershock)) == Name(Aftershock);
    case Guardian => assert TrimTrailingSpace(Display(Guardian)) == Name(Guardian);
    case _ => assert false;
  }

  lemma DisplayIsNamePart9(p: Perk)
    requires 56 <= DeclarationIndex(p) && DeclarationIndex(p) < 63
    ensures Display(p) != ""
    ensures TrimTrailingSpace(Display(p)) == Name(p)
  {
    match p
    case Demolish => assert TrimTrailingSpace(Display(Demolish)) == Name(Demolish);
    case FontOfLife => assert TrimTrailingSpace(Display(FontOfLife)) == Name(FontOfLife);
    case ShieldBash => assert TrimTrailingSpace(Display(ShieldBash)) == Name(ShieldBash);
    case Conditioning => assert TrimTrailingSpace(Display(Conditioning)) == Name(Conditioning);
    case SecondWind => assert TrimTrailingSpace(Display(SecondWind)) == Name(SecondWind);
    case BonePlating => assert TrimTrailingSpace(Display(BonePlating)) == Name(BonePlating);
    case Overgrowth => assert TrimTrailingSpace(Display(Overgrowth)) == Name(Overgrowth);
    case _ => assert false;
  }

  lemma DisplayIsNamePart10(p: Perk)
    requires 63 <= DeclarationIndex(p) && DeclarationIndex(p) < 70
    ensures Display(p) != ""
    ensures TrimTrailingSpace(Display(p)) == Name(p)
  {
    match p
    case Revitalize => assert TrimTrailingSpace(Display(Revitalize)) == Name(Revitalize);
    case Unflinching => assert TrimTrailingSpace(Display(Unflinching)) == Name(Unflinching);
    case Sorcery => assert TrimTrailingSpace(Display(Sorcery)) == Name(Sorcery);
    case SummonAery => assert TrimTrailingSpace(Display(SummonAery)) == Name(SummonAery);
    case ArcaneComet => assert TrimTrailingSpace(Display(ArcaneComet)) == Name(ArcaneComet);
    case PhaseRush => assert TrimTrailingSpace(Display(PhaseRush)) == Name(PhaseRush);
    case NullifyingOrb => assert TrimTrailingSpace(Display(NullifyingOrb)) == Name(NullifyingOrb);
    case _ => assert false;
  }

  lemma DisplayIsNamePart11(p: Perk)
    requires 70 <= DeclarationIndex(p) && DeclarationIndex(p) < 77
    ensures Display(p) != ""
    ensures TrimTrailingSpace(Display(p)) == Name(p)
  {
    match p
    case ManaflowBand => assert TrimTrailingSpace(Display(ManaflowBand)) == Name(ManaflowBand);
    case NimbusCloack => assert TrimTrailingSpace(Display(NimbusCloack)) == Name(NimbusCloack);
    case Transcendence => assert TrimTrailingSpace(Display(Transcendence)) == Name(Transcendence);
    case Celerity => assert TrimTrailingSpace(Display(Celerity)) == Name(Celerity);
    case AbsoluteFocus => assert TrimTrailingSpace(Display(AbsoluteFocus)) == Name(AbsoluteFocus);
    case Scorch => assert TrimTrailingSpace(Display(Scorch)) == Name(Scorch);
    case Waterwalking => assert TrimTrailingSpace(Display(Waterwalking)) == Name(Waterwalking);
    case _ => assert false;
  }

  lemma DisplayIsNamePart12(p: Perk)
    requires 77 <= DeclarationIndex(p)
    ensures Display(p) != ""
    ensures TrimTrailingSpace(Display(p)) == Name(p)
  {
    match p
    case GatheringStorm => assert TrimTrailingSpace(Display(GatheringStorm)) == Name(GatheringStorm);
    case _ => assert false;
  }

  /**
   * Every variant displays as its own identifier, possibly followed by one
   * space; no display string is empty.
   */
  lemma DisplayIsName(p: Perk)
    ensures Display(p) != ""
    ensures TrimTrailingSpace(Display(p)) == Name(p)
  {
    if DeclarationIndex(p) < 7 {
      DisplayIsNamePart1(p);
    } else if DeclarationIndex(p) < 14 {
      DisplayIsNamePart2(p);
    } else if DeclarationIndex(p) < 21 {
      DisplayIsNamePart3(p);
    } else if DeclarationIndex(p) < 28 {
      DisplayIsNamePart4(p);
    } else if DeclarationIndex(p) < 35 {
      DisplayIsNamePart5(p);
    } else if DeclarationIndex(p) < 42 {
      DisplayIsNamePart6(p);
    } else if DeclarationIndex(p) < 49 {
      DisplayIsNamePart7(p);
    } else if DeclarationIndex(p) < 56 {
      DisplayIsNamePart8(p);
    } else if DeclarationIndex(p) < 63 {
      DisplayIsNamePart9(p);
    } else if DeclarationIndex(p) < 70 {
      DisplayIsNamePart10(p);
    } else if DeclarationIndex(p) < 77 {
      DisplayIsNamePart11(p);
    } else {
      DisplayIsNamePart12(p);
    }
  }

  /** The declared discriminants are pairwise distinct. */
  lemma DiscriminantsDistinct(p: Perk, q: Perk)
    ensures Discriminant(p) == Discriminant(q) <==> p == q
  {
    FromU16CompleteRoundTrip(p);
    FromU16CompleteRoundTrip(q);
  }

  lemma DisplayUnknown()
    ensures Display(UNKNOWN) == "UNKNOWN"
  {
  }

  /** The lookup as written misses a declared variant: 8005 is PressTheAttack. */
  lemma FromMissesPressTheAttack()
    ensures Discriminant(PressTheAttack) == 8005
    ensures FromU16(8005) == UNKNOWN
  {
  }

  /** The lookup with one arm per declared variant. */
  function FromU16Complete(v: U16): Perk {
    match v
    case 5001 => StatsHealScaling
    case 5002 => StatsArmor
    case 5003 => StatsMagicResist
    case 5005 => StatsAttackSpeed
    case 5007 => StatsAbilityHaste
    case 5008 => StatsAdaptiveForce
    case 5010 => StatsMovementSpeed
    case 5011 => StatsHealth
    case 5012 => StatsResistScaling
    case 5013 => StatsTenacitySlowResist
    case 8100 => Domination
    case 8112 => Electrocute
    case 8128 => DarkHarvest
    case 9923 => HailOfBlades
    case 8126 => CheapShot
    case 8139 => TasteOfBlood
    case 8143 => SuddenImpact
    case 8136 => ZombieWard
    case 8120 => GhostPoro
    case 8138 => EyeballCollection
    case 8135 => RavenousHunter
    case 8134 => IngeniousHunter
    case 8105 => RelentlessHunter
    case 8106 => UltimateHunter
    case 8300 => Inspiration
    case 8351 => GlacialAugment
    case 8360 => UnsealedSpellbook
    case 8369 => FirstStrike
    case 8306 => HextechFlashtraption
    case 8304 => MagicalFootwear
    case 8321 => CashBack
    case 8313 => PerfectTiming
    case 8352 => TimeWarpTonic
    case 8345 => BiscuitDelivery
    case 8347 => CosmicInsight
    case 8410 => ApproachVelocity
    case 8316 => JackOfAllTrades
    case 8000 => Precision
    case 8005 => PressTheAttack
    case 8008 => LethalTempo
    case 8021 => FleetFootwork
    case 8010 => Conqueror
    case 9101 => AbsorbLife
    case 9111 => Triumph
    case 8009 => PresenceOfMind
    case 9104 => LegendAlacrity
    case 9105 => LegendHaste
    case 9103 => LegendBloodline
    case 8014 => CoupDeGrace
    case 8017 => CutDown
    case 8299 => LastStand
    case 8400 => Resolve
    case 8437 => GraspOfTheUndying
    case 8439 => Aftershock
    case 8465 => Guardian
    case 8446 => Demolish
    case 8463 => FontOfLife
    case 8401 => ShieldBash
    case 8429 => Conditioning
    case 8444 => SecondWind
    case 8473 => BonePlating
    case 8451 => Overgrowth
    case 8453 => Revitalize
    case 8242 => Unflinching
    case 8200 => Sorcery
    case 8214 => SummonAery
    case 8229 => ArcaneComet
    case 8230 => PhaseRush
    case 8224 => NullifyingOrb
    case 8226 => ManaflowBand
    case 8275 => NimbusCloack
    case 8210 => Transcendence
    case 8234 => Celerity
    case 8233 => AbsoluteFocus
    case 8237 => Scorch
    case 8232 => Waterwalking
    case 8236 => GatheringStorm
    case _ => UNKNOWN
  }

  lemma FromU16CompleteRoundTripPart1(p: Perk)
    requires DeclarationIndex(p) < 7
    ensures FromU16Complete(Discriminant(p)) == p
  {
    match p
    case UNKNOWN => assert FromU16Complete(Discriminant(UNKNOWN)) == UNKNOWN;
    case StatsHealScaling => assert FromU16Complete(Discriminant(StatsHealScaling)) == StatsHealScaling;
    case StatsArmor => assert FromU16Complete(Discriminant(StatsArmor)) == StatsArmor;
    case StatsMagicResist => assert FromU16Complete(Discriminant(StatsMagicResist)) == StatsMagicResist;
    case StatsAttackSpeed => assert FromU16Complete(Discriminant(StatsAttackSpeed)) == StatsAttackSpeed;
    case StatsAbilityHaste => assert FromU16Complete(Discriminant(StatsAbilityHaste)) == StatsAbilityHaste;
    case StatsAdaptiveForce => assert FromU16Complete(Discriminant(StatsAdaptiveForce)) == StatsAdaptiveForce;
    case _ => assert false;
  }

  lemma FromU16CompleteRoundTripPart2(p: Perk)
    requires 7 <= DeclarationIndex(p) && DeclarationIndex(p) < 14
    ensures FromU16Complete(Discriminant(p)) == p
  {
    match p
    case StatsMovementSpeed => assert FromU16Complete(Discriminant(StatsMovementSpeed)) == StatsMovementSpeed;
    case StatsHealth => assert FromU16Complete(Discriminant(StatsHealth)) == StatsHealth;
    case StatsResistScaling => assert FromU16Complete(Discriminant(StatsResistScaling)) == StatsResistScaling;
    case StatsTenacitySlowResist => assert FromU16Complete(Discriminant(StatsTenacitySlowResist)) == StatsTenacitySlowResist;
    case Domination => assert FromU16Complete(Discriminant(Domination)) == Domination;
    case Electrocute => assert FromU16Complete(Discriminant(Electrocute)) == Electrocute;
    case DarkHarvest => assert FromU16Complete(Discriminant(DarkHarvest)) == DarkHarvest;
    case _ => assert false;
  }

  lemma FromU16CompleteRoundTripPart3(p: Perk)
    requires 14 <= DeclarationIndex(p) && DeclarationIndex(p) < 21
    ensures FromU16Complete(Discriminant(p)) == p
  {
    match p
    case HailOfBlades => assert FromU16Complete(Discriminant(HailOfBlades)) == HailOfBlades;
    case CheapShot => assert FromU16Complete(Discriminant(CheapShot)) == CheapShot;
    case TasteOfBlood => assert FromU16Complete(Discriminant(TasteOfBlood)) == TasteOfBlood;
    case SuddenImpact => assert FromU16Complete(Discriminant(SuddenImpact)) == SuddenImpact;
    case ZombieWard => assert FromU16Complete(Discriminant(ZombieWard)) == ZombieWard;
    case GhostPoro => assert FromU16Complete(Discriminant(GhostPoro)) == GhostPoro;
    case EyeballCollection => assert FromU16Complete(Discriminant(EyeballCollection)) == EyeballCollection;
    case _ => assert false;
  }

  lemma FromU16CompleteRoundTripPart4(p: Perk)
    requires 21 <= DeclarationIndex(p) && DeclarationIndex(p) < 28
    ensures FromU16Complete(Discriminant(p)) == p
  {
    match p
    case RavenousHunter => assert FromU16Complete(Discriminant(RavenousHunter)) == RavenousHunter;
    case IngeniousHunter => assert FromU16Complete(Discriminant(IngeniousHunter)) == IngeniousHunter;
    case RelentlessHunter => assert FromU16Complete(Discriminant(RelentlessHunter)) == RelentlessHunter;
    case UltimateHunter => assert FromU16Complete(Discriminant(UltimateHunter)) == UltimateHunter;
    case Inspiration => assert FromU16Complete(Discriminant(Inspiration)) == Inspiration;
    case GlacialAugment => assert FromU16Complete(Discriminant(GlacialAugment)) == GlacialAugment;
    case UnsealedSpellbook => assert FromU16Complete(Discriminant(UnsealedSpellbook)) == UnsealedSpellbook;
    case _ => assert false;
  }

  lemma FromU16CompleteRoundTripPart5(p: Perk)
    requires 28 <= DeclarationIndex(p) && DeclarationIndex(p) < 35
    ensures FromU16Complete(Discriminant(p)) == p
  {
    match p
    case FirstStrike => assert FromU16Complete(Discriminant(FirstStrike)) == FirstStrike;
    case HextechFlashtraption => assert FromU16Complete(Discriminant(HextechFlashtraption)) == HextechFlashtraption;
    case MagicalFootwear => assert FromU16Complete(Discriminant(MagicalFootwear)) == MagicalFootwear;
    case CashBack => assert FromU16Complete(Discriminant(CashBack)) == CashBack;
    case PerfectTiming => assert FromU16Complete(Discriminant(PerfectTiming)) == PerfectTiming;
    case TimeWarpTonic => assert FromU16Complete(Discriminant(TimeWarpTonic)) == TimeWarpTonic;
    case BiscuitDelivery => assert FromU16Complete(Discriminant(BiscuitDelivery)) == BiscuitDelivery;
    case _ => assert false;
  }

  lemma FromU16CompleteRoundTripPart6(p: Perk)
    requires 35 <= DeclarationIndex(p) && DeclarationIndex(p) < 42
    ensures FromU16Complete(Discriminant(p)) == p
  {
    match p
    case CosmicInsight => assert FromU16Complete(Discriminant(CosmicInsight)) == CosmicInsight;
    case ApproachVelocity => assert FromU16Complete(Discriminant(ApproachVelocity)) == ApproachVelocity;
    case JackOfAllTrades => assert FromU16Complete(Discriminant(JackOfAllTrades)) == JackOfAllTrades;
    case Precision => assert FromU16Complete(Discriminant(Precision)) == Precision;
    case PressTheAttack => assert FromU16Complete(Discriminant(PressTheAttack)) == PressTheAttack;
    case LethalTempo => assert FromU16Complete(Discriminant(LethalTempo)) == LethalTempo;
    case FleetFootwork => assert FromU16Complete(Discriminant(FleetFootwork)) == FleetFootwork;
    case _ => assert false;
  }

  lemma FromU16CompleteRoundTripPart7(p: Perk)
    requires 42 <= DeclarationIndex(p) && DeclarationIndex(p) < 49
    ensures FromU16Complete(Discriminant(p)) == p
  {
    match p
    case Conqueror => assert FromU16Complete(Discriminant(Conqueror)) == Conqueror;
    case AbsorbLife => assert FromU16Complete(Discriminant(AbsorbLife)) == AbsorbLife;
    case Triumph => assert FromU16Complete(Discriminant(Triumph)) == Triumph;
    case PresenceOfMind => assert FromU16Complete(Discriminant(PresenceOfMind)) == PresenceOfMind;
    case LegendAlacrity => assert FromU16Complete(Discriminant(LegendAlacrity)) == LegendAlacrity;
    case LegendHaste => assert FromU16Complete(Discriminant(LegendHaste)) == LegendHaste;
    case LegendBloodline => assert FromU16Complete(Discriminant(LegendBloodline)) == LegendBloodline;
    case _ => assert false;
  }

  lemma FromU16CompleteRoundTripPart8(p: Perk)
    requires 49 <= DeclarationIndex(p) && DeclarationIndex(p) < 56
    ensures FromU16Complete(Discriminant(p)) == p
  {
    match p
    case CoupDeGrace => assert FromU16Complete(Discriminant(CoupDeGrace)) == CoupDeGrace;
    case CutDown => assert FromU16Complete(Discriminant(CutDown)) == CutDown;
    case LastStand => assert FromU16Complete(Discriminant(LastStand)) == LastStand;
    case Resolve => assert FromU16Complete(Discriminant(Resolve)) == Resolve;
    case GraspOfTheUndying => assert FromU16Complete(Discriminant(GraspOfTheUndying)) == GraspOfTheUndying;
    case Aftershock => assert FromU16Complete(Discriminant(Aftershock)) == Aftershock;
    case Guardian => assert FromU16Complete(Discriminant(Guardian)) == Guardian;
    case _ => assert false;
  }

  lemma FromU16CompleteRoundTripPart9(p: Perk)
    requires 56 <= DeclarationIndex(p) && DeclarationIndex(p) < 63
    ensures FromU16Complete(Discriminant(p)) == p
  {
    match p
    case Demolish => assert FromU16Complete(Discriminant(Demolish)) == Demolish;
    case FontOfLife => assert FromU16Complete(Discriminant(FontOfLife)) == FontOfLife;
    case ShieldBash => assert FromU16Complete(Discriminant(ShieldBash)) == ShieldBash;
    case Conditioning => assert FromU16Complete(Discriminant(Conditioning)) == Conditioning;
    case SecondWind => assert FromU16Complete(Discriminant(SecondWind)) == SecondWind;
    case BonePlating => assert FromU16Complete(Discriminant(BonePlating)) == BonePlating;
    case Overgrowth => assert FromU16Complete(Discriminant(Overgrowth)) == Overgrowth;
    case _ => assert false;
  }

  lemma FromU16CompleteRoundTripPart10(p: Perk)
    requires 63 <= DeclarationIndex(p) && DeclarationIndex(p) < 70
    ensures FromU16Complete(Discriminant(p)) == p
  {
    match p
    case Revitalize => assert FromU16Complete(Discriminant(Revitalize)) == Revitalize;
    case Unflinching => assert FromU16Complete(Discriminant(Unflinching)) == Unflinching;
    case Sorcery => assert FromU16Complete(Discriminant(Sorcery)) == Sorcery;
    case SummonAery => assert FromU16Complete(Discriminant(SummonAery)) == SummonAery;
    case ArcaneComet => assert FromU16Complete(Discriminant(ArcaneComet)) == ArcaneComet;
    case PhaseRush => assert FromU16Complete(Discriminant(PhaseRush)) == PhaseRush;
    case NullifyingOrb => assert FromU16Complete(Discriminant(NullifyingOrb)) == NullifyingOrb;
    case _ => assert false;
  }

  lemma FromU16CompleteRoundTripPart11(p: Perk)
    requires 70 <= DeclarationIndex(p) && DeclarationIndex(p) < 77
    ensures FromU16Complete(Discriminant(p)) == p
  {
    match p
    case ManaflowBand => assert FromU16Complete(Discriminant(ManaflowBand)) == ManaflowBand;
    case NimbusCloack => assert FromU16Complete(Discriminant(NimbusCloack)) == NimbusCloack;
    case Transcendence => assert FromU16Complete(Discriminant(Transcendence)) == Transcendence;
    case Celerity => assert FromU16Complete(Discriminant(Celerity)) == Celerity;
    case AbsoluteFocus => assert FromU16Complete(Discriminant(AbsoluteFocus)) == AbsoluteFocus;
    case Scorch => assert FromU16Complete(Discriminant(Scorch)) == Scorch;
    case Waterwalking => assert FromU16Complete(Discriminant(Waterwalking)) == Waterwalking;
    case _ => assert false;
  }

  lemma FromU16CompleteRoundTripPart12(p: Perk)
    requires 77 <= DeclarationIndex(p)
    ensures FromU16Complete(Discriminant(p)) == p
  {
    match p
    case GatheringStorm => assert FromU16Complete(Discriminant(GatheringStorm)) == GatheringStorm;
    case _ => assert false;
  }

  /** The complete lookup is a left inverse of `as u16` on every variant. */
  lemma FromU16CompleteRoundTrip(p: Perk)
    ensures FromU16Complete(Discriminant(p)) == p
  {
    if DeclarationIndex(p) < 7 {
      FromU16CompleteRoundTripPart1(p);
    } else if DeclarationIndex(p) < 14 {
      FromU16CompleteRoundTripPart2(p);
    } else if DeclarationIndex(p) < 21 {
      FromU16CompleteRoundTripPart3(p);
    } else if DeclarationIndex(p) < 28 {
      FromU16CompleteRoundTripPart4(p);
    } else if DeclarationIndex(p) < 35 {
      FromU16CompleteRoundTripPart5(p);
    } else if DeclarationIndex(p) < 42 {
      FromU16CompleteRoundTripPart6(p);
    } else if DeclarationIndex(p) < 49 {
      FromU16CompleteRoundTripPart7(p);
    } else if DeclarationIndex(p) < 56 {
      FromU16CompleteRoundTripPart8(p);
    } else if DeclarationIndex(p) < 63 {
      FromU16CompleteRoundTripPart9(p);
    } else if DeclarationIndex(p) < 70 {
      FromU16CompleteRoundTripPart10(p);
    } else if DeclarationIndex(p) < 77 {
      FromU16CompleteRoundTripPart11(p);
    } else {
      FromU16CompleteRoundTripPart12(p);
    }
  }


  lemma FromU16CompleteExtendsPart1(v: U16)
    requires v in {5001, 5002, 5003, 5005, 5007, 5008, 5010}
    ensures FromU16Complete(v) == FromU16(v)
  {
  }

  lemma FromU16CompleteExtendsPart2(v: U16)
    requires v in {5011, 5012, 5013, 8100, 8112, 8128, 9923}
    ensures FromU16Complete(v) == FromU16(v)
  {
  }

  lemma FromU16CompleteExtendsPart3(v: U16)
    requires v in {8126, 8139, 8143, 8136, 8120, 8138, 8135}
    ensures FromU16Complete(v) == FromU16(v)
  {
  }

  lemma FromU16CompleteExtendsPart4(v: U16)
    requires v in {8134, 8105, 8106, 8300, 8351, 8360, 8369}
    ensures FromU16Complete(v) == FromU16(v)
  {
  }

  lemma FromU16CompleteExtendsPart5(v: U16)
    requires v in {8306, 8304, 8321, 8313, 8352, 8345, 8347}
    ensures FromU16Complete(v) == FromU16(v)
  {
  }

  lemma FromU16CompleteExtendsPart6(v: U16)
    requires v in {8410, 8316, 8000}
    ensures FromU16Complete(v) == FromU16(v)
  {
  }

  /** On the listed codes the complete lookup agrees with the one as written. */
  lemma FromU16CompleteExtends(v: U16)
    requires v in ListedCodes
    ensures FromU16Complete(v) == FromU16(v)
  {
    if v in {5001, 5002, 5003, 5005, 5007, 5008, 5010} {
      FromU16CompleteExtendsPart1(v);
    } else if v in {5011, 5012, 5013, 8100, 8112, 8128, 9923} {
      FromU16CompleteExtendsPart2(v);
    } else if v in {8126, 8139, 8143, 8136, 8120, 8138, 8135} {
      FromU16CompleteExtendsPart3(v);
    } else if v in {8134, 8105, 8106, 8300, 8351, 8360, 8369} {
      FromU16CompleteExtendsPart4(v);
    } else if v in {8306, 8304, 8321, 8313, 8352, 8345, 8347} {
      FromU16CompleteExtendsPart5(v);
    } else {
      FromU16CompleteExtendsPart6(v);
    }
  }

}
