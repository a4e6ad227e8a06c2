/** The domain records of the character editor: skills, consciousness
    catalogue entries, snapshots and the character itself. Each string-literal
    union of `character.ts` becomes a datatype with one constructor per
    literal, and `...Value` gives back the literal the union admits. */
module CharacterTypes {
  import opened Wrappers

  // ---------------------------------------------------------------------
  // Enumerations of a union type
  // ---------------------------------------------------------------------

  /** `all` lists every value of `T` and `value` gives each a different
      literal: `all` enumerates the union whose literals are `value`'s. */
  ghost predicate Enumerates<T(!new)>(all: seq<T>, value: T -> string) {
    && (forall t :: t in all)
    && (forall i, j :: 0 <= i < j < |all| ==> value(all[i]) != value(all[j]))
  }

  /** The first element of `xs` whose key is `k` (that it is the first is
      `FindFirstIsFirst`). Reading a raw string back into a union, finding a
      select option by value and finding a catalogue entry by id are all this
      search. */
  function FindFirst<T, K(==)>(xs: seq<T>, key: T -> K, k: K): (r: Option<T>)
    ensures r.Some? ==> r.value in xs && key(r.value) == k
    ensures r.None? <==> forall i :: 0 <= i < |xs| ==> key(xs[i]) != k
  {
    if |xs| == 0 then None
    else if key(xs[0]) == k then Some(xs[0])
    else FindFirst(xs[1..], key, k)
  }

  /** A hit of `FindFirst` sits at a position before which no element carries
      the key. */
  lemma {:induction false} FindFirstIsFirst<T, K>(xs: seq<T>, key: T -> K, k: K)
    requires FindFirst(xs, key, k).Some?
    ensures exists i ::
      && 0 <= i < |xs|
      && xs[i] == FindFirst(xs, key, k).value
      && (forall j :: 0 <= j < i ==> key(xs[j]) != k)
  {
    if key(xs[0]) == k {
      assert xs[0] == FindFirst(xs, key, k).value;
    } else {
      FindFirstIsFirst(xs[1..], key, k);
      var i :|
        && 0 <= i < |xs[1..]|
        && xs[1..][i] == FindFirst(xs[1..], key, k).value
        && (forall j :: 0 <= j < i ==> key(xs[1..][j]) != k);
      assert xs[i + 1] == FindFirst(xs, key, k).value;
      forall j | 0 <= j < i + 1 ensures key(xs[j]) != k {
        if j > 0 { assert xs[j] == xs[1..][j - 1]; }
      }
    }
  }

  /** In an enumeration, no two members share a literal. */
  lemma {:induction false} EnumerationInjective<T(!new)>(all: seq<T>, value: T -> string, a: T, b: T)
    requires Enumerates(all, value)
    requires value(a) == value(b)
    ensures a == b
  {
    assert a in all && b in all;
    var i :| 0 <= i < |all| && all[i] == a;
    var j :| 0 <= j < |all| && all[j] == b;
    assert value(all[i]) == value(all[j]);
  }

  /** Reading a union's literal back through an enumeration gives the member
      it came from. (That a string which is no literal is refused is
      `FindFirst`'s `None?` clause.) */
  lemma {:induction false} LookupRoundTrip<T(!new)>(all: seq<T>, value: T -> string, t: T)
    requires Enumerates(all, value)
    ensures FindFirst(all, value, value(t)) == Some(t)
  {
    var r := FindFirst(all, value, value(t));
    assert t in all;
    var k :| 0 <= k < |all| && all[k] == t;
    assert r.Some?;
    EnumerationInjective(all, value, r.value, t);
  }

  // ---------------------------------------------------------------------
  // Skills
  // ---------------------------------------------------------------------

  /** `SkillType`: the seven skill categories. */
  datatype SkillType = Normal | Red | Yellow | Blue | Passive | Ultimate | Qte

  const AllSkillTypes: seq<SkillType> := [Normal, Red, Yellow, Blue, Passive, Ultimate, Qte]

  function SkillTypeValue(t: SkillType): string {
    match t
    case Normal => "normal"
    case Red => "red"
    case Yellow => "yellow"
    case Blue => "blue"
    case Passive => "passive"
    case Ultimate => "ultimate"
    case Qte => "qte"
  }

  /** The damage-classification label of a skill (`ISkill['damageTag']`). */
  datatype DamageTag = NormalAttack | CorePassive | RedOrb | YellowOrb | BlueOrb | Finale | QteTag

  const AllDamageTags: seq<DamageTag> := [NormalAttack, CorePassive, RedOrb, YellowOrb, BlueOrb, Finale, QteTag]

  function DamageTagValue(t: DamageTag): string {
    match t
    case NormalAttack => "普攻"
    case CorePassive => "核心被动"
    case RedOrb => "红球"
    case YellowOrb => "黄球"
    case BlueOrb => "蓝球"
    case Finale => "终解"
    case QteTag => "QTE"
  }

  /** `ISkill`: one skill of a character; `multiplier` is its damage ratio. */
  datatype Skill = Skill(
    icon: string,
    name: string,
    description: string,
    skillType: SkillType,
    multiplier: real,
    damageTag: DamageTag)

  // ---------------------------------------------------------------------
  // Consciousness catalogue entries
  // ---------------------------------------------------------------------

  /** `IConsciousness`: a catalogue entry, identified by `id`; `positions`
      are the slots it may be equipped in. */
  datatype Consciousness = Consciousness(
    id: int,
    name: string,
    icon: string,
    description: string,
    positions: seq<int>)

  // ---------------------------------------------------------------------
  // Character descriptors
  // ---------------------------------------------------------------------

  datatype Quality = S | A | B

  const AllQualities: seq<Quality> := [S, A, B]

  function QualityValue(q: Quality): string {
    match q
    case S => "S"
    case A => "A"
    case B => "B"
  }

  /** The character's class (role); the field is `class` in the record. */
  datatype CharacterClass = Attacker | Tank | Support | Amplifier | Vanguard | Annihilator | Observer

  const AllClasses: seq<CharacterClass> := [Attacker, Tank, Support, Amplifier, Vanguard, Annihilator, Observer]

  function ClassValue(c: CharacterClass): string {
    match c
    case Attacker => "进攻型"
    case Tank => "装甲型"
    case Support => "辅助型"
    case Amplifier => "增幅型"
    case Vanguard => "先锋型"
    case Annihilator => "湮灭型"
    case Observer => "观测者"
  }

  datatype FrameType = General | Exclusive | Linkage

  const AllFrameTypes: seq<FrameType> := [General, Exclusive, Linkage]

  function FrameTypeValue(f: FrameType): string {
    match f
    case General => "泛用"
    case Exclusive => "独域"
    case Linkage => "联动"
  }

  datatype DamageType = Fire | Lightning | Dark | Ice | Physical | Mixed | Void

  const AllDamageTypes: seq<DamageType> := [Fire, Lightning, Dark, Ice, Physical, Mixed, Void]

  function DamageTypeValue(d: DamageType): string {
    match d
    case Fire => "火"
    case Lightning => "雷"
    case Dark => "暗"
    case Ice => "冰"
    case Physical => "物理"
    case Mixed => "混合"
    case Void => "空"
  }

  // Each union is enumerated by its constant list: every member is listed
  // once and no two members share a literal.

  lemma SkillTypesEnumerated()
    ensures |AllSkillTypes| == 7 && Enumerates(AllSkillTypes, SkillTypeValue)
  {
    forall t: SkillType ensures t in AllSkillTypes {
      match t
      case Normal => assert AllSkillTypes[0] == t;
      case Red => assert AllSkillTypes[1] == t;
      case Yellow => assert AllSkillTypes[2] == t;
      case Blue => assert AllSkillTypes[3] == t;
      case Passive => assert AllSkillTypes[4] == t;
      case Ultimate => assert AllSkillTypes[5] == t;
      case Qte => assert AllSkillTypes[6] == t;
    }
  }

  lemma DamageTagsEnumerated()
    ensures |AllDamageTags| == 7 && Enumerates(AllDamageTags, DamageTagValue)
  {
    forall t: DamageTag ensures t in AllDamageTags {
      match t
      case NormalAttack => assert AllDamageTags[0] == t;
      case CorePassive => assert AllDamageTags[1] == t;
      case RedOrb => assert AllDamageTags[2] == t;
      case YellowOrb => assert AllDamageTags[3] == t;
      case BlueOrb => assert AllDamageTags[4] == t;
      case Finale => assert AllDamageTags[5] == t;
      case QteTag => assert AllDamageTags[6] == t;
    }
  }

  lemma QualitiesEnumerated()
    ensures |AllQualities| == 3 && Enumerates(AllQualities, QualityValue)
  {
    forall q: Quality ensures q in AllQualities {
      match q
      case S => assert AllQualities[0] == q;
      case A => assert AllQualities[1] == q;
      case B => assert AllQualities[2] == q;
    }
  }

  lemma ClassesEnumerated()
    ensures |AllClasses| == 7 && Enumerates(AllClasses, ClassValue)
  {
    forall c: CharacterClass ensures c in AllClasses {
      match c
      case Attacker => assert AllClasses[0] == c;
      case Tank => assert AllClasses[1] == c;
      case Support => assert AllClasses[2] == c;
      case Amplifier => assert AllClasses[3] == c;
      case Vanguard => assert AllClasses[4] == c;
      case Annihilator => assert AllClasses[5] == c;
      case Observer => assert AllClasses[6] == c;
    }
  }

  lemma FrameTypesEnumerated()
    ensures |AllFrameTypes| == 3 && Enumerates(AllFrameTypes, FrameTypeValue)
  {
    forall f: FrameType ensures f in AllFrameTypes {
      match f
      case General => assert AllFrameTypes[0] == f;
      case Exclusive => assert AllFrameTypes[1] == f;
      case Linkage => assert AllFrameTypes[2] == f;
    }
  }

  lemma DamageTypesEnumerated()
    ensures |AllDamageTypes| == 7 && Enumerates(AllDamageTypes, DamageTypeValue)
  {
    forall d: DamageType ensures d in AllDamageTypes {
      match d
      case Fire => assert AllDamageTypes[0] == d;
      case Lightning => assert AllDamageTypes[1] == d;
      case Dark => assert AllDamageTypes[2] == d;
      case Ice => assert AllDamageTypes[3] == d;
      case Physical => assert AllDamageTypes[4] == d;
      case Mixed => assert AllDamageTypes[5] == d;
      case Void => assert AllDamageTypes[6] == d;
    }
  }

  /** A skill's damage tag is one of the seven labels, and each label names
      exactly one tag. */
  lemma DamageTagLabels(t: DamageTag)
    ensures DamageTagValue(t) in ["普攻", "核心被动", "红球", "黄球", "蓝球", "终解", "QTE"]
    ensures FindFirst(AllDamageTags, DamageTagValue, DamageTagValue(t)) == Some(t)
  {
    DamageTagsEnumerated();
    LookupRoundTrip(AllDamageTags, DamageTagValue, t);
  }

  // ---------------------------------------------------------------------
  // Damage results and snapshots
  // ---------------------------------------------------------------------

  /** One line of a damage breakdown. */
  datatype SkillDamage = SkillDamage(name: string, damage: int)

  /** The damage calculator's result; a snapshot stores one verbatim. */
  datatype DamageResult = DamageResult(totalDamage: int, skills: seq<SkillDamage>)

  /** The three combat stats a snapshot captures. */
  datatype CoreStats = CoreStats(baseAttack: real, critRate: real, critDamage: real)

  /** `ICharacterSnapshot`: a point-in-time capture of a character. */
  datatype Snapshot = Snapshot(
    id: string,
    name: string,
    createdAt: int,
    sourceCharacterId: string,
    coreStats: CoreStats,
    damageResult: DamageResult)

  // ---------------------------------------------------------------------
  // The character
  // ---------------------------------------------------------------------

  /** `ICharacter`: the record the whole editor manipulates. */
  datatype Character = Character(
    id: string,
    name: string,
    codename: string,
    avatar: string,
    quality: Quality,
    characterClass: CharacterClass,
    frameType: FrameType,
    damageType: DamageType,
    baseAttack: real,
    critRate: real,
    critDamage: real,
    skills: seq<Skill>,
    recommendedConsciousness: seq<Consciousness>,
    snapshots: seq<Snapshot>,
    createdAt: Option<int>,
    updatedAt: Option<int>,
    log: Option<seq<string>>)

  /** The character's combat stats, as a snapshot records them. */
  function CoreStatsOf(c: Character): CoreStats {
    CoreStats(c.baseAttack, c.critRate, c.critDamage)
  }
}
