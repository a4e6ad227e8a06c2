/** The damage calculator: from a character's combat stats and skills to a
    per-skill damage breakdown and its total. Arithmetic is over `real`;
    rounding is that of `Math.round`, to the nearest integer with halves
    going up. */
module DamageCalculator {
  import opened Wrappers
  import opened CharacterTypes

  /** The name given to a skill whose own name is empty. */
  const UnnamedSkill: string := "未命名技能"

  /** `Math.round`: the integer nearest to `x`, a tie going to the larger. */
  function Round(x: real): (n: int)
    ensures n as real - 0.5 <= x < n as real + 0.5
  {
    (x + 0.5).Floor
  }

  /** The rounding bound above pins the result down: it is the only
      integer within half a unit of `x` on those terms. */
  lemma RoundUnique(x: real, n: int)
    requires n as real - 0.5 <= x < n as real + 0.5
    ensures Round(x) == n
  {
  }

  /** Rounding a whole number changes nothing. */
  lemma RoundWhole(n: int)
    ensures Round(n as real) == n
  {
    RoundUnique(n as real, n);
  }

  /** Expected damage of one hit: attack times multiplier, scaled by the
      average critical bonus. */
  function ExpectedDamage(stats: CoreStats, multiplier: real): real {
    stats.baseAttack * multiplier * (1.0 + stats.critRate * stats.critDamage)
  }

  /** The name a breakdown line carries: the skill's own, or the placeholder
      when that is empty. Never empty. */
  function DisplayName(skill: Skill): (name: string)
    ensures name != []
    ensures skill.name != [] ==> name == skill.name
    ensures skill.name == [] ==> name == UnnamedSkill
  {
    if skill.name != [] then skill.name else UnnamedSkill
  }

  /** The breakdown line of one skill. */
  function SkillEntry(stats: CoreStats, skill: Skill): SkillDamage {
    SkillDamage(DisplayName(skill), Round(ExpectedDamage(stats, skill.multiplier)))
  }

  /** One line per skill, in skill order. */
  function Breakdown(stats: CoreStats, skills: seq<Skill>): (entries: seq<SkillDamage>)
    ensures |entries| == |skills|
    ensures forall i :: 0 <= i < |skills| ==>
      && entries[i].name == DisplayName(skills[i])
      && entries[i].damage == Round(ExpectedDamage(stats, skills[i].multiplier))
  {
    if |skills| == 0 then []
    else [SkillEntry(stats, skills[0])] + Breakdown(stats, skills[1..])
  }

  /** The sum of the damages of a breakdown. */
  function Total(entries: seq<SkillDamage>): int {
    if |entries| == 0 then 0 else entries[0].damage + Total(entries[1..])
  }

  lemma {:induction false} TotalConcat(a: seq<SkillDamage>, b: seq<SkillDamage>)
    ensures Total(a + b) == Total(a) + Total(b)
  {
    if |a| == 0 {
      assert a + b == b;
    } else {
      assert (a + b)[1..] == a[1..] + b;
      TotalConcat(a[1..], b);
    }
  }

  /** `calculateDamage`: no character, or one without skills, gives a zero
      total and an empty breakdown; otherwise one line per skill, in order,
      and the total is the sum of the lines. */
  function CalculateDamage(c: Option<Character>): (r: DamageResult)
    ensures c.None? || |c.value.skills| == 0 ==> r.totalDamage == 0 && r.skills == []
    ensures c.Some? ==> |r.skills| == |c.value.skills|
    ensures c.Some? ==> forall i :: 0 <= i < |c.value.skills| ==>
      && r.skills[i].name == DisplayName(c.value.skills[i])
      && r.skills[i].damage == Round(ExpectedDamage(CoreStatsOf(c.value), c.value.skills[i].multiplier))
    ensures r.totalDamage == Total(r.skills)
  {
    if c.None? || |c.value.skills| == 0 then DamageResult(0, [])
    else
      var entries := Breakdown(CoreStatsOf(c.value), c.value.skills);
      RoundWhole(Total(entries));
      DamageResult(Round(Total(entries) as real), entries)
  }

  /** The calculation as `damageCalculator.ts` writes it: map over the skills,
      adding each rounded damage to a running total, then round the total. */
  method ComputeDamage(c: Option<Character>) returns (r: DamageResult)
    ensures r == CalculateDamage(c)
  {
    if c.None? || |c.value.skills| == 0 {
      return DamageResult(0, []);
    }
    var character := c.value;
    var stats := CoreStatsOf(character);
    var skills := character.skills;
    var totalDamage := 0;
    var skillsDamage: seq<SkillDamage> := [];
    var i := 0;
    while i < |skills|
      invariant 0 <= i <= |skills|
      invariant skillsDamage == Breakdown(stats, skills[..i])
      invariant totalDamage == Total(skillsDamage)
    {
      var skill := skills[i];
      var roundedDamage := Round(ExpectedDamage(stats, skill.multiplier));
      TotalConcat(skillsDamage, [SkillDamage(DisplayName(skill), roundedDamage)]);
      totalDamage := totalDamage + roundedDamage;
      skillsDamage := skillsDamage + [SkillDamage(DisplayName(skill), roundedDamage)];
      i := i + 1;
    }
    assert skills[..i] == skills;
    r := DamageResult(Round(totalDamage as real), skillsDamage);
  }

  /** The result depends on the character only through the three combat
      stats a snapshot records and the skill list. */
  lemma DependsOnCoreStatsAndSkills(c1: Character, c2: Character)
    requires CoreStatsOf(c1) == CoreStatsOf(c2) && c1.skills == c2.skills
    ensures CalculateDamage(Some(c1)) == CalculateDamage(Some(c2))
  {
  }

  lemma {:induction false} TotalNonNegative(entries: seq<SkillDamage>)
    requires forall i :: 0 <= i < |entries| ==> entries[i].damage >= 0
    ensures Total(entries) >= 0
  {
    if |entries| > 0 {
      TotalNonNegative(entries[1..]);
    }
  }

  /** With non-negative stats and multipliers, every line and the total are
      non-negative. */
  lemma NonNegativeDamage(c: Character)
    requires c.baseAttack >= 0.0 && c.critRate >= 0.0 && c.critDamage >= 0.0
    requires forall i :: 0 <= i < |c.skills| ==> c.skills[i].multiplier >= 0.0
    ensures forall i :: 0 <= i < |CalculateDamage(Some(c)).skills| ==> CalculateDamage(Some(c)).skills[i].damage >= 0
    ensures CalculateDamage(Some(c)).totalDamage >= 0
  {
    var r := CalculateDamage(Some(c));
    forall i | 0 <= i < |r.skills| ensures r.skills[i].damage >= 0 {
      var m := c.skills[i].multiplier;
      assert c.baseAttack * m >= 0.0;
      assert 1.0 + c.critRate * c.critDamage >= 1.0;
      assert ExpectedDamage(CoreStatsOf(c), m) >= 0.0;
    }
    TotalNonNegative(r.skills);
  }

  /** A skill with multiplier 0 deals 0, and dropping it leaves the total
      unchanged. */
  lemma ZeroMultiplierContributesNothing(c: Character, k: nat)
    requires k < |c.skills| && c.skills[k].multiplier == 0.0
    ensures CalculateDamage(Some(c)).skills[k].damage == 0
    ensures CalculateDamage(Some(c)).totalDamage
         == CalculateDamage(Some(c.(skills := c.skills[..k] + c.skills[k + 1..]))).totalDamage
  {
    var stats := CoreStatsOf(c);
    var rest := c.skills[..k] + c.skills[k + 1..];
    var d := c.(skills := rest);
    var all := CalculateDamage(Some(c)).skills;
    var without := CalculateDamage(Some(d)).skills;
    RoundUnique(ExpectedDamage(stats, 0.0), 0);
    assert all == all[..k] + [all[k]] + all[k + 1..];
    assert without == all[..k] + all[k + 1..];
    TotalConcat(all[..k] + [all[k]], all[k + 1..]);
    TotalConcat(all[..k], [all[k]]);
    TotalConcat(all[..k], all[k + 1..]);
  }

  /** A character with attack 1000, crit rate 0.5, crit damage 1.5 and one
      skill of multiplier 1 is expected to deal 1750. */
  lemma WorkedExample(c: Character)
    requires c.baseAttack == 1000.0 && c.critRate == 0.5 && c.critDamage == 1.5
    requires |c.skills| == 1 && c.skills[0].multiplier == 1.0
    ensures CalculateDamage(Some(c)).totalDamage == 1750
    ensures CalculateDamage(Some(c)).skills[0].damage == 1750
  {
    RoundWhole(1750);
    var r := CalculateDamage(Some(c));
    assert Total(r.skills) == r.skills[0].damage + Total(r.skills[1..]);
  }
}
