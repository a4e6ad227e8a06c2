/** The static consciousness catalogue: the table every recommendation
    refers to, and lookup of an entry by its id. */
module ConsciousnessData {
  import opened Wrappers
  import opened CharacterTypes

  /** `ALL_CONSCIOUSNESS`, entry for entry. */
  const AllConsciousness: seq<Consciousness> := [
    Consciousness(
      1, "芭斯隆", "/consciousness_icons/baslon.png",
      "2件套：攻击增加3%，伤害加成3%。\n4件套：每次消除色球，获得一层战争号令，最多叠加30层。释放必杀技时，根据层数获得必杀技能量，每层获得0.5点能量，清除所有层数。",
      [1, 2, 3, 4, 5, 6]),
    Consciousness(
      2, "达芬奇", "/consciousness_icons/davinci.png",
      "2件套：攻击增加3%，生命增加3%。\n4件套：QTE出场时，触发另一个角色的QTE，冷却时间15秒。",
      [1, 2, 3, 4, 5, 6]),
    Consciousness(
      3, "爱因斯坦娜", "/consciousness_icons/einstiena.png",
      "2件套：攻击增加3%，属性伤害增加3%。\n4件套：QTE出场时，降低目标15%的对应属性抗性，持续8秒。",
      [1, 2, 3, 4, 5, 6]),
    Consciousness(
      4, "汉娜", "/consciousness_icons/hanna.png",
      "2件套：攻击增加3%，会心增加3%。\n4件套：进入超算空间时，获得2个随机信号球。3消后，下次3消伤害增加25%，持续5秒。",
      [1, 2, 3, 4, 5, 6]),
    Consciousness(
      5, "莎士比亚", "/consciousness_icons/shakespeare.png",
      "2件套：攻击增加3%，火属性伤害增加3%。\n4件套：攻击目标时，有20%概率触发一次范围火属性伤害，并使其火属性抗性降低8%，持续5秒，有5秒冷却时间。",
      [1, 2, 3, 4, 5, 6]),
    Consciousness(
      6, "海森", "/consciousness_icons/heisen.png",
      "2件套：攻击增加3%，雷属性伤害增加3%。\n4件套：攻击目标时，有20%概率触发一次范围雷属性伤害，并使其雷属性抗性降低8%，持续5秒，有5秒冷却时间。",
      [1, 2, 3, 4, 5, 6]),
    Consciousness(
      7, "达尔文", "/consciousness_icons/darwin.png",
      "2件套：攻击增加3%，伤害加成3%。\n4件套：每次消除色球，伤害增加3%，持续4秒，最多叠加5层，重复触发刷新持续时间。",
      [1, 2, 3, 4, 5, 6]),
    Consciousness(
      8, "列文虎克", "/consciousness_icons/leeuwenhoek.png",
      "2件套：攻击增加3%，火属性伤害增加3%。\n4件套：火属性伤害增加10%。攻击时，有50%概率使目标进入灼烧状态，每秒造成12%火属性伤害，持续3秒。",
      [1, 2, 3, 4, 5, 6]),
    Consciousness(
      9, "库莉珂", "/consciousness_icons/kuhlicke.png",
      "2件套：攻击增加3%，生命增加3%。\n4件套：治疗效果增加10%。释放治疗技能时，受治疗单位伤害增加15%，持续5秒。",
      [1, 2, 3, 4, 5, 6])
  ]

  /** Ids strictly increase along the table. */
  ghost predicate IdsIncreasing(table: seq<Consciousness>) {
    forall i :: 0 <= i < |table| - 1 ==> table[i].id < table[i + 1].id
  }

  /** No two entries of the table share an id. */
  ghost predicate UniqueIds(table: seq<Consciousness>) {
    forall i, j :: 0 <= i < j < |table| ==> table[i].id != table[j].id
  }

  function EntryId(e: Consciousness): int {
    e.id
  }

  /** The first entry of `table` carrying `id`, if any. */
  function FindById(table: seq<Consciousness>, id: int): Option<Consciousness> {
    FindFirst(table, EntryId, id)
  }

  /** Lookup in the catalogue. */
  function ConsciousnessById(id: int): Option<Consciousness> {
    FindById(AllConsciousness, id)
  }

  /** Strictly increasing ids are pairwise distinct. */
  lemma {:induction false} IncreasingIdsAreUnique(table: seq<Consciousness>)
    requires IdsIncreasing(table)
    ensures UniqueIds(table)
    ensures forall i, j :: 0 <= i < j < |table| ==> table[i].id < table[j].id
  {
    if |table| > 1 {
      IncreasingIdsAreUnique(table[1..]);
      forall j | 0 < j < |table| ensures table[0].id < table[j].id {
        assert table[1..][0].id <= table[1..][j - 1].id;
      }
    }
  }

  /** With unique ids, lookup finds exactly the entry that carries the id. */
  lemma {:induction false} FindUnique(table: seq<Consciousness>, k: nat)
    requires UniqueIds(table) && k < |table|
    ensures FindById(table, table[k].id) == Some(table[k])
  {
    if k > 0 {
      assert table[0].id != table[k].id;
      FindUnique(table[1..], k - 1);
    }
  }

  /** The catalogue has nine entries with ids 1 to 9, in order. */
  lemma CatalogueIds()
    ensures |AllConsciousness| == 9
    ensures forall i :: 0 <= i < |AllConsciousness| ==> AllConsciousness[i].id == i + 1
    ensures IdsIncreasing(AllConsciousness)
  {
  }

  /** No two catalogue entries share an id. */
  lemma CatalogueIdsUnique()
    ensures UniqueIds(AllConsciousness)
  {
    CatalogueIds();
    IncreasingIdsAreUnique(AllConsciousness);
  }

  /** Lookup of an id in 1..9 returns the entry carrying that id; any other
      id is not found. */
  lemma LookupCatalogue(id: int)
    ensures 1 <= id <= 9 ==> ConsciousnessById(id) == Some(AllConsciousness[id - 1])
    ensures 1 <= id <= 9 ==> ConsciousnessById(id).value.id == id
    ensures ConsciousnessById(id).None? <==> !(1 <= id <= 9)
  {
    CatalogueIds();
    CatalogueIdsUnique();
    if 1 <= id <= 9 {
      FindUnique(AllConsciousness, id - 1);
    }
  }

  /** Every entry may sit in any of the six slots, and in no other. */
  lemma CataloguePositions()
    ensures forall i :: 0 <= i < |AllConsciousness| ==> AllConsciousness[i].positions == [1, 2, 3, 4, 5, 6]
    ensures forall i, p :: 0 <= i < |AllConsciousness| && p in AllConsciousness[i].positions ==> 1 <= p <= 6
  {
  }
}
