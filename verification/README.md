# Character editor core, modelled in Dafny

This project models the pure logic of a single-page editor for game-character
configurations (stats, skills, recommended consciousness gear):

- the **damage calculator** `calculateDamage`, which turns a character's
  attack, critical-hit rate, critical-hit damage and skill multipliers into a
  per-skill damage breakdown and a total;
- the **character store** state: the default character record, the
  single-field update action `updateCharacterInfo`, the reset action
  `resetCharacterState` and the `fullName` getter;
- the **domain types** of the character record (skill, consciousness entry,
  snapshot, character) and their string-literal unions;
- the **static tables**: the select-option tables offered for quality, class,
  frame type, damage type and damage tag, and the consciousness catalogue.

Everything is functional: records are immutable datatypes, store actions are
functions from the old state to the new one. Combat stats and skill
multipliers are `real`; clock readings (timestamps), catalogue ids and
positions, and computed damages are `int`.

| file | module | models |
|---|---|---|
| `wrappers.dfy` | `Wrappers` | `Option`, for optional fields and the nullable character argument |
| `decimal.dfy` | `Decimal` | decimal rendering of a whole number (of magnitude below 10^21) inside a template literal, and its inverse |
| `types.dfy` | `CharacterTypes` | `src/types/character.ts` |
| `options.dfy` | `CharacterOptions` | `src/constants/characterOptions.ts` |
| `consciousness.dfy` | `ConsciousnessData` | `src/database/consciousnessData.ts` |
| `damage.dfy` | `DamageCalculator` | `src/utils/damageCalculator.ts` |
| `store.dfy` | `CharacterStore` | `src/stores/characterStore.ts` |

Modelling choices:

- Each string-literal union becomes a datatype with one constructor per
  literal; a `...Value` function gives the literal back, and a constant list
  (`AllQualities`, `AllClasses`, ...) enumerates the union. `Enumerates`
  states that the list names every member once and no two members share a
  literal.
- `class`, `type` and `label` are reserved words in Dafny, so the character's
  class is `characterClass`, a skill's type is `skillType` and an option's
  label is `caption`.
- `Math.round` is `Round(x) = Floor(x + 0.5)`: the nearest integer, a tie going
  towards +∞, as JavaScript rounds. It returns an `int`, so every breakdown
  damage and the total are whole numbers by construction.
- The generic `updateCharacterInfo<K>(field, value)` is a sum type
  `CharacterUpdate` with one constructor per key of the record, each carrying
  a value of that key's type; `KeyOf` names the key and `Read(c, k)` gives the
  value `c` holds under `k` in the same form. "Holds the new value" and "agrees
  on key k" are both stated through `Read`.
- The clock read by `createDefaultCharacterState` is a parameter `timestamp`.
  The default record in the source sets no `baseAttack`, `critRate`,
  `critDamage` or `snapshots`; those four values are a parameter
  (`OmittedFields`) of the default constructor. `createdAt`, `updatedAt` and
  `log` are absent (`None`) in the default record.
- Searching is one generic function, `FindFirst`: the first element whose
  key matches. Lookup of a consciousness entry by id (`FindById`) is that
  search on ids; the source declares the id the identity used for lookup but
  does not itself contain a lookup function. Likewise the option tables have
  no lookup by value in the source: `OptionFor` is the model's own search of
  a table by value, used to state that every union member has an option.

The store holds one character and has only the update and reset actions. The
default character has quality `S`, class `进攻型`, frame type `泛用` and damage
type `物理`. Recommended consciousness is a list of whole catalogue records.
A snapshot's `coreStats` has the shape of the `CoreStats` datatype (attack,
crit rate, crit damage) and its `damageResult` is the calculator's own
`DamageResult` datatype.

## Model

| member | source | states |
|---|---|---|
| `DamageCalculator.Round` | src/utils/damageCalculator.ts:32 | the rounded value is the integer within half a unit of the input, ties going up |
| `DamageCalculator.RoundUnique` | src/utils/damageCalculator.ts:32 | any integer within that half-open half-unit window is the rounded value: rounding is fully determined |
| `DamageCalculator.RoundWhole` | src/utils/damageCalculator.ts:42 | rounding a whole number (the integer sum) changes nothing |
| `DamageCalculator.DisplayName` | src/utils/damageCalculator.ts:36 | a line's name is the skill's name when that is non-empty, otherwise the placeholder '未命名技能'; it is never empty |
| `DamageCalculator.Breakdown` | src/utils/damageCalculator.ts:29-39 | exactly one line per skill, in skill order; line i carries skill i's display name and round(attack × multiplier × (1 + critRate × critDamage)) |
| `DamageCalculator.TotalConcat` | src/utils/damageCalculator.ts:33 | the running total is additive over concatenated breakdowns |
| `DamageCalculator.CalculateDamage` | src/utils/damageCalculator.ts:21-45 | no character or no skills gives total 0 and an empty breakdown; otherwise one line per skill, in order, with the per-skill formula; the total is the sum of the lines |
| `DamageCalculator.ComputeDamage` | src/utils/damageCalculator.ts:26-44 | the loop that maps the skills while accumulating the total computes exactly `CalculateDamage` |
| `DamageCalculator.DependsOnCoreStatsAndSkills` | src/utils/damageCalculator.ts:26 | the result depends on the character only through the three combat stats and the skill list |
| `DamageCalculator.TotalNonNegative` | src/utils/damageCalculator.ts:33 | a breakdown of non-negative lines has a non-negative total |
| `DamageCalculator.NonNegativeDamage` | src/utils/damageCalculator.ts:31-32 | with non-negative attack, crit rate, crit damage and multipliers, every line and the total are non-negative |
| `DamageCalculator.ZeroMultiplierContributesNothing` | src/utils/damageCalculator.ts:31-33 | a skill with multiplier 0 deals 0, and removing it leaves the total unchanged |
| `DamageCalculator.WorkedExample` | src/utils/damageCalculator.ts:31 | attack 1000, crit rate 0.5, crit damage 1.5 and one skill of multiplier 1 give 1750 |
| `Decimal.NatToString` | src/stores/characterStore.ts:6 | the rendering of a natural number is a non-empty string of digits with no leading zero: it starts with '0' only when it is exactly "0" for zero |
| `Decimal.IntToString` | src/stores/characterStore.ts:6 | the rendering of an integer is the digit rendering of a non-negative value, or '-' followed by the digit rendering of the magnitude of a negative one; it starts with '-' exactly when the value is negative |
| `Decimal.NatRoundTrip` | src/stores/characterStore.ts:6 | reading back the decimal digits of a natural number gives the number |
| `Decimal.IntRoundTrip` | src/stores/characterStore.ts:6 | reading back the rendering of an integer (sign included) gives the integer |
| `Decimal.IntToStringInjective` | src/stores/characterStore.ts:6 | different integers render differently |
| `CharacterStore.DefaultId` | src/stores/characterStore.ts:6 | a default id is "character_" followed by the timestamp's decimal rendering, which reads back as the timestamp |
| `CharacterStore.DefaultIdsDistinct` | src/stores/characterStore.ts:6 | default ids made at different timestamps differ |
| `CharacterStore.CreateDefaultCharacterState` | src/stores/characterStore.ts:5-16 | the default record: timestamp id, name '露西亚·黎明', codename '破晓', empty avatar, quality S, class 进攻型, frame type 泛用, damage type 物理, no skills, no recommendations, no optional fields |
| `CharacterStore.InitialState` | src/stores/characterStore.ts:24-26 | a fresh store holds the default character, every field stated: timestamp id, name '露西亚·黎明', codename '破晓', empty avatar, quality S, class 进攻型, frame type 泛用, damage type 物理, no skills, no recommendations, no optional fields, and the supplied stats and snapshots |
| `CharacterStore.FullName` | src/stores/characterStore.ts:34 | the full name splits into the name, " - ", and the codename |
| `CharacterStore.FullNameDeterminesCodename` | src/stores/characterStore.ts:34 | for equal names, full names agree exactly when the codenames agree |
| `CharacterStore.SameEverywhereIsEqual` | src/types/character.ts:96-152 | the update keys cover the whole record: characters agreeing on every key are equal |
| `CharacterStore.UpdateCharacterInfo` | src/stores/characterStore.ts:48-50 | afterwards the character holds the new value under the updated key, and agrees with the old character on every other key |
| `CharacterStore.UpdateIsDeterminedByContract` | src/stores/characterStore.ts:49 | any state that holds the new value and agrees elsewhere is the updated state: the contract pins the action down |
| `CharacterStore.UpdateLastWins` | src/stores/characterStore.ts:49 | two updates of the same key leave the last value |
| `CharacterStore.UpdateIdempotent` | src/stores/characterStore.ts:49 | applying an update twice equals applying it once |
| `CharacterStore.UpdateWithCurrentValue` | src/stores/characterStore.ts:49 | writing the value a key already holds leaves the state unchanged |
| `CharacterStore.UpdatesCommute` | src/stores/characterStore.ts:49 | updates of different keys commute |
| `CharacterStore.FullNameUnaffected` | src/stores/characterStore.ts:34 | updating any key but the name or codename leaves the full name unchanged |
| `CharacterStore.ResetCharacterState` | src/stores/characterStore.ts:53-57 | a reset replaces the whole character: the result is exactly a fresh store's state (hence every default field), in particular no skills, no recommendations, quality S, class 进攻型, frame type 泛用, damage type 物理, empty avatar, a timestamp id |
| `CharacterStore.ResetForgetsPriorState` | src/stores/characterStore.ts:55-57 | the reset state does not depend on the prior state and equals a fresh store's state |
| `CharacterStore.ResetIdsDiffer` | src/stores/characterStore.ts:55-57 | resets at different timestamps give different ids |
| `CharacterTypes.SkillTypesEnumerated` | src/types/character.ts:13 | SkillType has exactly seven members (normal, red, yellow, blue, passive, ultimate, qte) with distinct literals |
| `CharacterTypes.DamageTagsEnumerated` | src/types/character.ts:35 | the damage tag has exactly seven members with distinct literals |
| `CharacterTypes.DamageTagLabels` | src/types/character.ts:35 | every damage tag is one of 普攻, 核心被动, 红球, 黄球, 蓝球, 终解, QTE, and its label reads back as that tag |
| `CharacterTypes.QualitiesEnumerated` | src/types/character.ts:110 | quality is exactly one of S, A, B |
| `CharacterTypes.ClassesEnumerated` | src/types/character.ts:113 | class has exactly seven members with distinct literals |
| `CharacterTypes.FrameTypesEnumerated` | src/types/character.ts:119 | frame type has exactly three members with distinct literals |
| `CharacterTypes.DamageTypesEnumerated` | src/types/character.ts:122 | damage type has exactly seven members with distinct literals |
| `CharacterOptions.MirrorCoversUnion` | src/constants/characterOptions.ts:53-56 | a table listing a union's literals in order has no duplicate value, has an option for every member, and offers only members' literals |
| `CharacterOptions.QualityOptionsTable` | src/constants/characterOptions.ts:12-16 | the quality values are S, A, B in that order; each label is the value followed by '级' |
| `CharacterOptions.QualityOptionsMatchUnion` | src/constants/characterOptions.ts:12-16 | no duplicate quality value; every quality has an option; every option value is a quality |
| `CharacterOptions.ClassOptionsTable` | src/constants/characterOptions.ts:21-29 | the class values are the seven classes in union order, each labelled with itself |
| `CharacterOptions.ClassOptionsMatchUnion` | src/constants/characterOptions.ts:21-29 | no duplicate class value; every class has an option; every option value is a class |
| `CharacterOptions.FrameTypeOptionsTable` | src/constants/characterOptions.ts:34-38 | the frame-type values are the three frame types in union order, each labelled with itself |
| `CharacterOptions.FrameTypeOptionsMatchUnion` | src/constants/characterOptions.ts:34-38 | no duplicate frame-type value; every frame type has an option; every option value is a frame type |
| `CharacterOptions.DamageTypeOptionsTable` | src/constants/characterOptions.ts:43-51 | the damage-type values are the seven damage types in union order, each labelled with itself |
| `CharacterOptions.DamageTypeOptionsMatchUnion` | src/constants/characterOptions.ts:43-51 | no duplicate damage-type value; every damage type has an option; every option value is a damage type |
| `CharacterOptions.DamageTagOptionsTable` | src/constants/characterOptions.ts:53-65 | the damage-tag values coincide, in order, with the skill's damage-tag union, each labelled with itself |
| `CharacterOptions.DamageTagOptionsMatchUnion` | src/constants/characterOptions.ts:53-65 | no duplicate damage-tag value; every damage tag has an option; every option value is a damage tag |
| `CharacterTypes.FindFirst` | src/types/character.ts:43-44 | a search by key (here: lookup by id) returns an element of the sequence carrying that key, and fails exactly when no element carries it |
| `CharacterTypes.FindFirstIsFirst` | src/types/character.ts:43-44 | a hit of the search is the first element carrying the key: no earlier element carries it |
| `ConsciousnessData.IncreasingIdsAreUnique` | src/database/consciousnessData.ts:9-83 | a table whose ids increase step by step has pairwise distinct, strictly ordered ids |
| `ConsciousnessData.FindUnique` | src/types/character.ts:43-44 | with unique ids, lookup of an entry's id returns that very entry |
| `ConsciousnessData.CatalogueIds` | src/database/consciousnessData.ts:9-83 | the catalogue has nine entries whose ids are 1..9 in strictly increasing order |
| `ConsciousnessData.CatalogueIdsUnique` | src/database/consciousnessData.ts:9-83 | no two catalogue entries share an id |
| `ConsciousnessData.LookupCatalogue` | src/database/consciousnessData.ts:9-83 | lookup of an id in 1..9 returns the entry carrying it; any other id is not found |
| `ConsciousnessData.CataloguePositions` | src/database/consciousnessData.ts:16-80 | every entry's positions are exactly [1,2,3,4,5,6], so every position lies in 1..6 |

## Left out

- IEEE-754 double arithmetic: the damage formula is computed over exact reals, so rounding error, overflow to infinity and NaN (for example from a missing stat) are not modelled.
- DamageCalculator.Round: models `Math.round` on finite values only; its result on NaN and infinities is not modelled, and the sign of a negative zero is not distinguished.
- CharacterStore.CreateDefaultCharacterState: the source leaves `baseAttack`, `critRate`, `critDamage` and `snapshots` unset (undefined at run time); the model takes them as a parameter instead of giving them a value.
- CharacterStore.DefaultId: JavaScript writes whole numbers of magnitude 10^21 or more in exponent form, while the model writes plain digits for every integer; a Date's `getTime()` stays within ±8.64·10^15 ms, so the id template never reaches that range.
- CharacterStore.DefaultId: the clock is a parameter; that two calls in the same millisecond give the same id is a property of the caller's clock, not of the model.
- Timestamps (`createdAt`, `updatedAt`, a snapshot's `createdAt`), catalogue ids and positions, and a snapshot's damages are whole numbers (`int`): the clock reports whole milliseconds, catalogue ids and slots are integers, and damages are rounded. A fractional value in those fields, such as `updateCharacterInfo('createdAt', 1.5)`, cannot be expressed.
- Arrays and objects are values: the aliasing by which `this.character[field] = value` shares the caller's array or object with the store is not modelled.
- The reactive store machinery (store definition, getter caching, reactivity) is framework behaviour; the state is a plain record and each action a function.
- Adding or deleting characters, skill and snapshot editing, the bounded action log, remote persistence and import/export do not exist in the store as written (it says more actions are to come), so none is modelled.
- File reading and downloading, JSON encoding and decoding, authentication, the backend client, routing and theme switching are browser, library or network glue outside this model.
- The consciousness descriptions, icons and names are carried as data; nothing is proved about their text.
