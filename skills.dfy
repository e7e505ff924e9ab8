/**
 * The ability slot of a skill-level-up event in the match details view:
 * a `#[repr(u8)]` enum with discriminants 1..4, its `From<u8>` conversion
 * (which panics outside 1..4) and its one-letter display.
 */
module Skills {
  import opened Ints

  datatype Skill = Q | W | E | R

  /** The declared discriminant, `skill as u8`. */
  function Discriminant(s: Skill): (v: U8)
    ensures 1 <= v <= 4
  {
    match s
    case Q => 1
    case W => 2
    case E => 3
    case R => 4
  }

  /** `Skill::from(v)`; any value outside 1..4 panics, hence the precondition. */
  function FromU8(v: U8): (s: Skill)
    requires 1 <= v <= 4
    ensures Discriminant(s) == v
  {
    match v
    case 1 => Q
    case 2 => W
    case 3 => E
    case 4 => R
  }

  /** `skill.to_string()`. */
  function Display(s: Skill): (r: string)
    ensures |r| == 1
  {
    match s
    case Q => "Q"
    case W => "W"
    case E => "E"
    case R => "R"
  }

  /** Converting a skill to its discriminant and back gives the skill. */
  lemma FromDiscriminant(s: Skill)
    ensures FromU8(Discriminant(s)) == s
  {
    match s
    case Q =>
    case W =>
    case E =>
    case R =>
  }

  /** The conversion is onto the four skills: each one is reached from exactly its own code. */
  lemma FromU8Injective(v: U8, w: U8)
    requires 1 <= v <= 4 && 1 <= w <= 4
    ensures FromU8(v) == FromU8(w) <==> v == w
  {
  }

  /** Distinct skills display as distinct letters. */
  lemma DisplayInjective(s: Skill, t: Skill)
    ensures Display(s) == Display(t) <==> s == t
  {
    match s
    case Q =>
    case W =>
    case E =>
    case R =>
  }

  /** The letters are exactly Q, W, E and R, in discriminant order. */
  lemma DisplayByCode(v: U8)
    requires 1 <= v <= 4
    ensures Display(FromU8(v)) == ["QWER"[v - 1]]
  {
  }
}
