/** The character store: its state (the one character being edited), the
    default record it starts from, the single-field update action, the reset
    action and the `fullName` getter. Each action is a pure function from the
    old state to the new one. */
module CharacterStore {
  import opened Wrappers
  import opened CharacterTypes
  import Decimal

  // ---------------------------------------------------------------------
  // The default character
  // ---------------------------------------------------------------------

  const DefaultIdPrefix: string := "character_"

  /** The id of a default character created at `timestamp` (milliseconds, as
      the clock reports them): the prefix followed by the number in decimal. */
  function DefaultId(timestamp: int): (id: string)
    ensures |id| > |DefaultIdPrefix| && id[..|DefaultIdPrefix|] == DefaultIdPrefix
    ensures id[|DefaultIdPrefix|..] == Decimal.IntToString(timestamp)
    ensures Decimal.ParseInt(id[|DefaultIdPrefix|..]) == timestamp
  {
    var digits := Decimal.IntToString(timestamp);
    var id := DefaultIdPrefix + digits;
    assert id[|DefaultIdPrefix|..] == digits;
    Decimal.IntRoundTrip(timestamp);
    id
  }

  /** Default characters created at different times get different ids. */
  lemma DefaultIdsDistinct(t1: int, t2: int)
    requires t1 != t2
    ensures DefaultId(t1) != DefaultId(t2)
  {
  }

  /** The fields the default record leaves unset; the caller supplies them. */
  datatype OmittedFields = OmittedFields(
    baseAttack: real,
    critRate: real,
    critDamage: real,
    snapshots: seq<Snapshot>)

  /** `createDefaultCharacterState`: a fixed record whose id is made from
      the clock. */
  function CreateDefaultCharacterState(timestamp: int, omitted: OmittedFields): (c: Character)
    ensures c.id == DefaultId(timestamp)
    ensures c.name == "露西亚·黎明" && c.codename == "破晓" && c.avatar == ""
    ensures c.quality == S && c.characterClass == Attacker
    ensures c.frameType == General && c.damageType == Physical
    ensures c.skills == [] && c.recommendedConsciousness == []
    ensures c.createdAt.None? && c.updatedAt.None? && c.log.None?
    ensures c.baseAttack == omitted.baseAttack && c.critRate == omitted.critRate
    ensures c.critDamage == omitted.critDamage
    ensures c.snapshots == omitted.snapshots
  {
    Character(
      DefaultId(timestamp),
      "露西亚·黎明",
      "破晓",
      "",
      S,
      Attacker,
      General,
      Physical,
      omitted.baseAttack,
      omitted.critRate,
      omitted.critDamage,
      [],
      [],
      omitted.snapshots,
      None,
      None,
      None)
  }

  // ---------------------------------------------------------------------
  // Store state
  // ---------------------------------------------------------------------

  datatype StoreState = StoreState(character: Character)

  /** The state a fresh store starts in: it holds the default character
      created at `timestamp`. */
  function InitialState(timestamp: int, omitted: OmittedFields): (r: StoreState)
    ensures r.character.id == DefaultId(timestamp)
    ensures r.character.name == "露西亚·黎明" && r.character.codename == "破晓"
    ensures r.character.avatar == ""
    ensures r.character.quality == S && r.character.characterClass == Attacker
    ensures r.character.frameType == General && r.character.damageType == Physical
    ensures r.character.skills == [] && r.character.recommendedConsciousness == []
    ensures r.character.createdAt.None? && r.character.updatedAt.None? && r.character.log.None?
    ensures r.character.baseAttack == omitted.baseAttack && r.character.critRate == omitted.critRate
    ensures r.character.critDamage == omitted.critDamage
    ensures r.character.snapshots == omitted.snapshots
  {
    StoreState(CreateDefaultCharacterState(timestamp, omitted))
  }

  /** `fullName`: the name, a spaced dash, then the codename. */
  function FullName(s: StoreState): (full: string)
    ensures |full| == |s.character.name| + 3 + |s.character.codename|
    ensures full[..|s.character.name|] == s.character.name
    ensures full[|s.character.name|..|s.character.name| + 3] == " - "
    ensures full[|s.character.name| + 3..] == s.character.codename
  {
    s.character.name + " - " + s.character.codename
  }

  /** Two states with the same name yield the same full name exactly when
      their codenames agree. */
  lemma FullNameDeterminesCodename(s1: StoreState, s2: StoreState)
    requires s1.character.name == s2.character.name
    ensures FullName(s1) == FullName(s2) <==> s1.character.codename == s2.character.codename
  {
    if FullName(s1) == FullName(s2) {
      var n := |s1.character.name| + 3;
      assert FullName(s1)[n..] == FullName(s2)[n..];
    }
  }

  // ---------------------------------------------------------------------
  // Single-field update
  // ---------------------------------------------------------------------

  /** The keys of a character record. */
  datatype CharacterKey =
    | IdKey | NameKey | CodenameKey | AvatarKey
    | QualityKey | ClassKey | FrameTypeKey | DamageTypeKey
    | BaseAttackKey | CritRateKey | CritDamageKey
    | SkillsKey | RecommendedConsciousnessKey | SnapshotsKey
    | CreatedAtKey | UpdatedAtKey | LogKey

  /** A key of the record together with a value of that key's type: the
      argument pair of `updateCharacterInfo(field, value)`. */
  datatype CharacterUpdate =
    | SetId(id: string)
    | SetName(name: string)
    | SetCodename(codename: string)
    | SetAvatar(avatar: string)
    | SetQuality(quality: Quality)
    | SetClass(characterClass: CharacterClass)
    | SetFrameType(frameType: FrameType)
    | SetDamageType(damageType: DamageType)
    | SetBaseAttack(baseAttack: real)
    | SetCritRate(critRate: real)
    | SetCritDamage(critDamage: real)
    | SetSkills(skills: seq<Skill>)
    | SetRecommendedConsciousness(recommendedConsciousness: seq<Consciousness>)
    | SetSnapshots(snapshots: seq<Snapshot>)
    | SetCreatedAt(createdAt: Option<int>)
    | SetUpdatedAt(updatedAt: Option<int>)
    | SetLog(log: Option<seq<string>>)

  function KeyOf(u: CharacterUpdate): CharacterKey {
    match u
    case SetId(_) => IdKey
    case SetName(_) => NameKey
    case SetCodename(_) => CodenameKey
    case SetAvatar(_) => AvatarKey
    case SetQuality(_) => QualityKey
    case SetClass(_) => ClassKey
    case SetFrameType(_) => FrameTypeKey
    case SetDamageType(_) => DamageTypeKey
    case SetBaseAttack(_) => BaseAttackKey
    case SetCritRate(_) => CritRateKey
    case SetCritDamage(_) => CritDamageKey
    case SetSkills(_) => SkillsKey
    case SetRecommendedConsciousness(_) => RecommendedConsciousnessKey
    case SetSnapshots(_) => SnapshotsKey
    case SetCreatedAt(_) => CreatedAtKey
    case SetUpdatedAt(_) => UpdatedAtKey
    case SetLog(_) => LogKey
  }

  /** The value the character holds under key `k`, as the update that would
      write it. */
  function Read(c: Character, k: CharacterKey): (u: CharacterUpdate)
    ensures KeyOf(u) == k
  {
    match k
    case IdKey => SetId(c.id)
    case NameKey => SetName(c.name)
    case CodenameKey => SetCodename(c.codename)
    case AvatarKey => SetAvatar(c.avatar)
    case QualityKey => SetQuality(c.quality)
    case ClassKey => SetClass(c.characterClass)
    case FrameTypeKey => SetFrameType(c.frameType)
    case DamageTypeKey => SetDamageType(c.damageType)
    case BaseAttackKey => SetBaseAttack(c.baseAttack)
    case CritRateKey => SetCritRate(c.critRate)
    case CritDamageKey => SetCritDamage(c.critDamage)
    case SkillsKey => SetSkills(c.skills)
    case RecommendedConsciousnessKey => SetRecommendedConsciousness(c.recommendedConsciousness)
    case SnapshotsKey => SetSnapshots(c.snapshots)
    case CreatedAtKey => SetCreatedAt(c.createdAt)
    case UpdatedAtKey => SetUpdatedAt(c.updatedAt)
    case LogKey => SetLog(c.log)
  }

  /** The character holds, under the update's key, the update's value. */
  predicate Holds(c: Character, u: CharacterUpdate) {
    Read(c, KeyOf(u)) == u
  }

  /** The two characters agree on key `k`. */
  predicate SameAt(c: Character, d: Character, k: CharacterKey) {
    Read(c, k) == Read(d, k)
  }

  /** Characters that agree on every key are the same character: the keys
      cover the whole record. */
  lemma SameEverywhereIsEqual(c: Character, d: Character)
    requires forall k :: SameAt(c, d, k)
    ensures c == d
  {
    assert c.id == d.id by { assert SameAt(c, d, IdKey); }
    assert c.name == d.name by { assert SameAt(c, d, NameKey); }
    assert c.codename == d.codename by { assert SameAt(c, d, CodenameKey); }
    assert c.avatar == d.avatar by { assert SameAt(c, d, AvatarKey); }
    assert c.quality == d.quality by { assert SameAt(c, d, QualityKey); }
    assert c.characterClass == d.characterClass by { assert SameAt(c, d, ClassKey); }
    assert c.frameType == d.frameType by { assert SameAt(c, d, FrameTypeKey); }
    assert c.damageType == d.damageType by { assert SameAt(c, d, DamageTypeKey); }
    assert c.baseAttack == d.baseAttack by { assert SameAt(c, d, BaseAttackKey); }
    assert c.critRate == d.critRate by { assert SameAt(c, d, CritRateKey); }
    assert c.critDamage == d.critDamage by { assert SameAt(c, d, CritDamageKey); }
    assert c.skills == d.skills by { assert SameAt(c, d, SkillsKey); }
    assert c.recommendedConsciousness == d.recommendedConsciousness by { assert SameAt(c, d, RecommendedConsciousnessKey); }
    assert c.snapshots == d.snapshots by { assert SameAt(c, d, SnapshotsKey); }
    assert c.createdAt == d.createdAt by { assert SameAt(c, d, CreatedAtKey); }
    assert c.updatedAt == d.updatedAt by { assert SameAt(c, d, UpdatedAtKey); }
    assert c.log == d.log by { assert SameAt(c, d, LogKey); }
  }

  /** `updateCharacterInfo(field, value)`: afterwards the character holds
      `value` under `field`, and every other key is as it was. */
  function UpdateCharacterInfo(s: StoreState, u: CharacterUpdate): (r: StoreState)
    ensures Holds(r.character, u)
    ensures forall k :: k != KeyOf(u) ==> SameAt(s.character, r.character, k)
  {
    var c := s.character;
    var c' := match u
      case SetId(v) => c.(id := v)
      case SetName(v) => c.(name := v)
      case SetCodename(v) => c.(codename := v)
      case SetAvatar(v) => c.(avatar := v)
      case SetQuality(v) => c.(quality := v)
      case SetClass(v) => c.(characterClass := v)
      case SetFrameType(v) => c.(frameType := v)
      case SetDamageType(v) => c.(damageType := v)
      case SetBaseAttack(v) => c.(baseAttack := v)
      case SetCritRate(v) => c.(critRate := v)
      case SetCritDamage(v) => c.(critDamage := v)
      case SetSkills(v) => c.(skills := v)
      case SetRecommendedConsciousness(v) => c.(recommendedConsciousness := v)
      case SetSnapshots(v) => c.(snapshots := v)
      case SetCreatedAt(v) => c.(createdAt := v)
      case SetUpdatedAt(v) => c.(updatedAt := v)
      case SetLog(v) => c.(log := v);
    StoreState(c')
  }

  /** The update contract has exactly one solution: any state holding the new
      value and agreeing elsewhere is the updated state. */
  lemma UpdateIsDeterminedByContract(s: StoreState, u: CharacterUpdate, t: StoreState)
    requires Holds(t.character, u)
    requires forall k :: k != KeyOf(u) ==> SameAt(s.character, t.character, k)
    ensures t == UpdateCharacterInfo(s, u)
  {
    var r := UpdateCharacterInfo(s, u);
    forall k ensures SameAt(t.character, r.character, k) {
      if k != KeyOf(u) {
        assert SameAt(s.character, t.character, k) && SameAt(s.character, r.character, k);
      }
    }
    SameEverywhereIsEqual(t.character, r.character);
  }

  /** Of two updates of the same key, the second wins. */
  lemma UpdateLastWins(s: StoreState, u1: CharacterUpdate, u2: CharacterUpdate)
    requires KeyOf(u1) == KeyOf(u2)
    ensures UpdateCharacterInfo(UpdateCharacterInfo(s, u1), u2) == UpdateCharacterInfo(s, u2)
  {
    var t := UpdateCharacterInfo(UpdateCharacterInfo(s, u1), u2);
    forall k | k != KeyOf(u2) ensures SameAt(s.character, t.character, k) {
      assert SameAt(s.character, UpdateCharacterInfo(s, u1).character, k);
    }
    UpdateIsDeterminedByContract(s, u2, t);
  }

  /** Applying the same update twice is applying it once. */
  lemma UpdateIdempotent(s: StoreState, u: CharacterUpdate)
    ensures UpdateCharacterInfo(UpdateCharacterInfo(s, u), u) == UpdateCharacterInfo(s, u)
  {
    UpdateLastWins(s, u, u);
  }

  /** Writing the value a key already holds changes nothing. */
  lemma UpdateWithCurrentValue(s: StoreState, u: CharacterUpdate)
    requires Holds(s.character, u)
    ensures UpdateCharacterInfo(s, u) == s
  {
    UpdateIsDeterminedByContract(s, u, s);
  }

  /** Updates of different keys can be applied in either order. */
  lemma UpdatesCommute(s: StoreState, u1: CharacterUpdate, u2: CharacterUpdate)
    requires KeyOf(u1) != KeyOf(u2)
    ensures UpdateCharacterInfo(UpdateCharacterInfo(s, u1), u2)
         == UpdateCharacterInfo(UpdateCharacterInfo(s, u2), u1)
  {
    var a1 := UpdateCharacterInfo(s, u1);
    var a := UpdateCharacterInfo(a1, u2);
    var b1 := UpdateCharacterInfo(s, u2);
    assert SameAt(a1.character, a.character, KeyOf(u1));
    forall k | k != KeyOf(u1) ensures SameAt(b1.character, a.character, k) {
      if k != KeyOf(u2) {
        assert SameAt(s.character, b1.character, k);
        assert SameAt(s.character, a1.character, k);
        assert SameAt(a1.character, a.character, k);
      }
    }
    UpdateIsDeterminedByContract(b1, u1, a);
  }

  /** An update of a key other than the name or the codename leaves the full
      name as it was. */
  lemma FullNameUnaffected(s: StoreState, u: CharacterUpdate)
    requires KeyOf(u) != NameKey && KeyOf(u) != CodenameKey
    ensures FullName(UpdateCharacterInfo(s, u)) == FullName(s)
  {
    var r := UpdateCharacterInfo(s, u);
    assert SameAt(s.character, r.character, NameKey);
    assert SameAt(s.character, r.character, CodenameKey);
  }


  // ---------------------------------------------------------------------
  // Reset
  // ---------------------------------------------------------------------

  /** `resetCharacterState`: the character is replaced by a fresh default
      record; nothing of the previous state survives. */
  function ResetCharacterState(s: StoreState, timestamp: int, omitted: OmittedFields): (r: StoreState)
    ensures r.character.skills == [] && r.character.recommendedConsciousness == []
    ensures r.character.quality == S && r.character.characterClass == Attacker
    ensures r.character.frameType == General && r.character.damageType == Physical
    ensures r.character.avatar == ""
    ensures r.character.id == DefaultId(timestamp)
    ensures r == InitialState(timestamp, omitted)
  {
    StoreState(CreateDefaultCharacterState(timestamp, omitted))
  }

  /** The reset state does not depend on the state it replaces, and it is the
      state a fresh store starts in. */
  lemma ResetForgetsPriorState(s1: StoreState, s2: StoreState, timestamp: int, omitted: OmittedFields)
    ensures ResetCharacterState(s1, timestamp, omitted) == ResetCharacterState(s2, timestamp, omitted)
    ensures ResetCharacterState(s1, timestamp, omitted) == InitialState(timestamp, omitted)
  {
  }

  /** Resets at different times give characters with different ids. */
  lemma ResetIdsDiffer(s: StoreState, t1: int, t2: int, omitted: OmittedFields)
    requires t1 != t2
    ensures ResetCharacterState(s, t1, omitted).character.id != ResetCharacterState(s, t2, omitted).character.id
  {
    DefaultIdsDistinct(t1, t2);
  }
}
