/** The select-option tables the editor offers for the character's
    enumerated fields. Each table is written out literally, as in
    `characterOptions.ts`, and proved to list exactly the literals of its union. */
module CharacterOptions {
  import opened Wrappers
  import opened CharacterTypes

  /** `SelectOption`: a stored value and the label shown for it (`label` is
      a reserved word here, so the field is `caption`). */
  datatype SelectOption = SelectOption(value: string, caption: string)

  const QualityOptions: seq<SelectOption> := [
    SelectOption("S", "S级"),
    SelectOption("A", "A级"),
    SelectOption("B", "B级")
  ]

  const ClassOptions: seq<SelectOption> := [
    SelectOption("进攻型", "进攻型"),
    SelectOption("装甲型", "装甲型"),
    SelectOption("辅助型", "辅助型"),
    SelectOption("增幅型", "增幅型"),
    SelectOption("先锋型", "先锋型"),
    SelectOption("湮灭型", "湮灭型"),
    SelectOption("观测者", "观测者")
  ]

  const FrameTypeOptions: seq<SelectOption> := [
    SelectOption("泛用", "泛用"),
    SelectOption("独域", "独域"),
    SelectOption("联动", "联动")
  ]

  const DamageTypeOptions: seq<SelectOption> := [
    SelectOption("火", "火"),
    SelectOption("雷", "雷"),
    SelectOption("暗", "暗"),
    SelectOption("冰", "冰"),
    SelectOption("物理", "物理"),
    SelectOption("混合", "混合"),
    SelectOption("空", "空")
  ]

  const DamageTagOptions: seq<SelectOption> := [
    SelectOption("普攻", "普攻"),
    SelectOption("核心被动", "核心被动"),
    SelectOption("红球", "红球"),
    SelectOption("黄球", "黄球"),
    SelectOption("蓝球", "蓝球"),
    SelectOption("终解", "终解"),
    SelectOption("QTE", "QTE")
  ]

  /** The table lists the literals of `all`, in the same order. */
  ghost predicate Mirrors<T>(options: seq<SelectOption>, all: seq<T>, value: T -> string) {
    && |options| == |all|
    && forall i :: 0 <= i < |options| ==> options[i].value == value(all[i])
  }

  /** No value occurs twice in the table. */
  ghost predicate DistinctValues(options: seq<SelectOption>) {
    forall i, j :: 0 <= i < j < |options| ==> options[i].value != options[j].value
  }

  /** Every option is labelled with its own value. */
  ghost predicate SelfLabelled(options: seq<SelectOption>) {
    forall i :: 0 <= i < |options| ==> options[i].caption == options[i].value
  }

  function OptionValue(o: SelectOption): string {
    o.value
  }

  /** The option a table offers for value `v`, if any. */
  function OptionFor(options: seq<SelectOption>, v: string): Option<SelectOption> {
    FindFirst(options, OptionValue, v)
  }

  /** A table that mirrors an enumeration has no duplicate values, offers an
      option for every member of the union, and every value it offers is the
      literal of a member. */
  lemma {:induction false} MirrorCoversUnion<T(!new)>(options: seq<SelectOption>, all: seq<T>, value: T -> string)
    requires Mirrors(options, all, value) && Enumerates(all, value)
    ensures DistinctValues(options)
    ensures forall t :: OptionFor(options, value(t)).Some?
    ensures forall i :: 0 <= i < |options| ==> FindFirst(all, value, options[i].value).Some?
  {
    forall t ensures OptionFor(options, value(t)).Some? {
      assert t in all;
      var k :| 0 <= k < |all| && all[k] == t;
      assert options[k].value == value(t);
    }
    forall i | 0 <= i < |options| ensures FindFirst(all, value, options[i].value).Some? {
      LookupRoundTrip(all, value, all[i]);
    }
  }

  /** The quality table lists S, A, B in that order, each labelled with its
      value followed by '级'. */
  lemma QualityOptionsTable()
    ensures Mirrors(QualityOptions, AllQualities, QualityValue)
    ensures forall i :: 0 <= i < |QualityOptions| ==> QualityOptions[i].caption == QualityOptions[i].value + "级"
  {
    assert QualityOptions[0].value == QualityValue(AllQualities[0]);
    assert QualityOptions[1].value == QualityValue(AllQualities[1]);
    assert QualityOptions[2].value == QualityValue(AllQualities[2]);
  }

  /** Every quality has an option, every option value is a member's
      literal, and no value is offered twice. */
  lemma QualityOptionsMatchUnion()
    ensures DistinctValues(QualityOptions)
    ensures forall q :: OptionFor(QualityOptions, QualityValue(q)).Some?
    ensures forall i :: 0 <= i < |QualityOptions| ==> FindFirst(AllQualities, QualityValue, QualityOptions[i].value).Some?
  {
    QualitiesEnumerated();
    QualityOptionsTable();
    MirrorCoversUnion(QualityOptions, AllQualities, QualityValue);
  }

  /** The class table lists the seven classes, each labelled with itself. */
  lemma ClassOptionsTable()
    ensures Mirrors(ClassOptions, AllClasses, ClassValue)
    ensures SelfLabelled(ClassOptions)
  {
    assert ClassOptions[0].value == ClassValue(AllClasses[0]);
    assert ClassOptions[1].value == ClassValue(AllClasses[1]);
    assert ClassOptions[2].value == ClassValue(AllClasses[2]);
    assert ClassOptions[3].value == ClassValue(AllClasses[3]);
    assert ClassOptions[4].value == ClassValue(AllClasses[4]);
    assert ClassOptions[5].value == ClassValue(AllClasses[5]);
    assert ClassOptions[6].value == ClassValue(AllClasses[6]);
  }

  /** Every class has an option, every option value is a member's
      literal, and no value is offered twice. */
  lemma ClassOptionsMatchUnion()
    ensures DistinctValues(ClassOptions)
    ensures forall c :: OptionFor(ClassOptions, ClassValue(c)).Some?
    ensures forall i :: 0 <= i < |ClassOptions| ==> FindFirst(AllClasses, ClassValue, ClassOptions[i].value).Some?
  {
    ClassesEnumerated();
    ClassOptionsTable();
    MirrorCoversUnion(ClassOptions, AllClasses, ClassValue);
  }

  /** The frame-type table lists the three frame types, each labelled with itself. */
  lemma FrameTypeOptionsTable()
    ensures Mirrors(FrameTypeOptions, AllFrameTypes, FrameTypeValue)
    ensures SelfLabelled(FrameTypeOptions)
  {
    assert FrameTypeOptions[0].value == FrameTypeValue(AllFrameTypes[0]);
    assert FrameTypeOptions[1].value == FrameTypeValue(AllFrameTypes[1]);
    assert FrameTypeOptions[2].value == FrameTypeValue(AllFrameTypes[2]);
  }

  /** Every frame type has an option, every option value is a member's
      literal, and no value is offered twice. */
  lemma FrameTypeOptionsMatchUnion()
    ensures DistinctValues(FrameTypeOptions)
    ensures forall f :: OptionFor(FrameTypeOptions, FrameTypeValue(f)).Some?
    ensures forall i :: 0 <= i < |FrameTypeOptions| ==> FindFirst(AllFrameTypes, FrameTypeValue, FrameTypeOptions[i].value).Some?
  {
    FrameTypesEnumerated();
    FrameTypeOptionsTable();
    MirrorCoversUnion(FrameTypeOptions, AllFrameTypes, FrameTypeValue);
  }

  /** The damage-type table lists the seven damage types, each labelled with itself. */
  lemma DamageTypeOptionsTable()
    ensures Mirrors(DamageTypeOptions, AllDamageTypes, DamageTypeValue)
    ensures SelfLabelled(DamageTypeOptions)
  {
    assert DamageTypeOptions[0].value == DamageTypeValue(AllDamageTypes[0]);
    assert DamageTypeOptions[1].value == DamageTypeValue(AllDamageTypes[1]);
    assert DamageTypeOptions[2].value == DamageTypeValue(AllDamageTypes[2]);
    assert DamageTypeOptions[3].value == DamageTypeValue(AllDamageTypes[3]);
    assert DamageTypeOptions[4].value == DamageTypeValue(AllDamageTypes[4]);
    assert DamageTypeOptions[5].value == DamageTypeValue(AllDamageTypes[5]);
    assert DamageTypeOptions[6].value == DamageTypeValue(AllDamageTypes[6]);
  }

  /** Every damage type has an option, every option value is a member's
      literal, and no value is offered twice. */
  lemma DamageTypeOptionsMatchUnion()
    ensures DistinctValues(DamageTypeOptions)
    ensures forall d :: OptionFor(DamageTypeOptions, DamageTypeValue(d)).Some?
    ensures forall i :: 0 <= i < |DamageTypeOptions| ==> FindFirst(AllDamageTypes, DamageTypeValue, DamageTypeOptions[i].value).Some?
  {
    DamageTypesEnumerated();
    DamageTypeOptionsTable();
    MirrorCoversUnion(DamageTypeOptions, AllDamageTypes, DamageTypeValue);
  }

  /** The damage-tag table lists the seven damage tags of a skill, each
      labelled with itself: it coincides with the skill's damage-tag union. */
  lemma DamageTagOptionsTable()
    ensures Mirrors(DamageTagOptions, AllDamageTags, DamageTagValue)
    ensures SelfLabelled(DamageTagOptions)
  {
    assert DamageTagOptions[0].value == DamageTagValue(AllDamageTags[0]);
    assert DamageTagOptions[1].value == DamageTagValue(AllDamageTags[1]);
    assert DamageTagOptions[2].value == DamageTagValue(AllDamageTags[2]);
    assert DamageTagOptions[3].value == DamageTagValue(AllDamageTags[3]);
    assert DamageTagOptions[4].value == DamageTagValue(AllDamageTags[4]);
    assert DamageTagOptions[5].value == DamageTagValue(AllDamageTags[5]);
    assert DamageTagOptions[6].value == DamageTagValue(AllDamageTags[6]);
  }

  /** Every damage tag has an option, every option value is a member's
      literal, and no value is offered twice. */
  lemma DamageTagOptionsMatchUnion()
    ensures DistinctValues(DamageTagOptions)
    ensures forall t :: OptionFor(DamageTagOptions, DamageTagValue(t)).Some?
    ensures forall i :: 0 <= i < |DamageTagOptions| ==> FindFirst(AllDamageTags, DamageTagValue, DamageTagOptions[i].value).Some?
  {
    DamageTagsEnumerated();
    DamageTagOptionsTable();
    MirrorCoversUnion(DamageTagOptions, AllDamageTags, DamageTagValue);
  }
}
