# L8nite character rules, modelled in Dafny

L8nite-chargen is a Django application for building characters of a tabletop
role-playing game. Almost all of it is record storage; this project models the
few rules that compute something:

- the attribute limit a race gives (`CharacterRace.get_limit`);
- the skill lookup (`CharacterSkills.get_modified_skill`) over the 28 skills and
  the attribute that governs each;
- the armor modifier of a character's equipment (`CharacterEquipment.ac_mod`)
  and the armor class (`Character.ac`);
- reading a weapon's die type (`Weapon.damage_die_value`) and rolling its
  damage with advantage and disadvantage (`Weapon.roll_damage`);
- the validation of armor records (`Armor.clean`);
- the constant choice tables for die types and races.

Database records become datatypes and derived values become functions. The
one imperative routine, `roll_damage`, becomes a method. Each random draw is a
parameter with the range `random.randint` would respect.

Files, one module per source file:

- `wrappers.dfy` (`Wrappers`): `Option` and `Result`.
- `numerals.dfy` (`Numerals`): Python's `int()` and `str()` on ASCII digit
  strings, and proofs that each undoes the other.
- `typedefs.dfy` (`Typedefs`): `DIE_TYPES`, `DIE_TYPE_CHOICES` and
  `RACE_CHOICES`.
- `character_models.dfy` (`CharacterModels`): races, skills, equipment and
  characters.
- `gear_models.dfy` (`GearModels`): weapons, damage rolls and armor.

Notes on the code that shape the model:

- The docstring of `roll_damage` promises "XDY + Z" (`gear/models.py:40`), but
  line 46 rolls one die and multiplies it by `damage_die_multiplier`. The model
  follows line 46. See "## Findings".
- The relations `head`, `body`, `left_hand`, `right_hand` and `misc_equipped`
  are commented out (`character/models.py:211-221`), and no code gives an empty
  slot a zero bonus. The four slot bonuses and the misc bonuses are therefore
  inputs.
- `get_limit` is a method of `CharacterRace` (`character/models.py:74-75`), so
  it is modelled on a race. No code computes a limit for a character without a
  race.
- `get_modified_skill` calls `getattr(self, skill)` (`character/models.py:204`),
  which raises AttributeError for a name that is not an attribute. The model
  returns `None` for it.

## Model

| member | source | states |
|---|---|---|
| `CharacterModels.GetLimit` | l8nite/character/models.py:74-75 | the limit is never below 10 |
| `CharacterModels.LimitOfAttribute` | l8nite/character/models.py:58-75 | for each of the eight short attribute names, the limit is the race's base value for that attribute plus 10 |
| `CharacterModels.LimitOfUnknownName` | l8nite/character/models.py:74-75 | a name with no `base_` field falls back to base 0, so its limit is exactly 10 |
| `CharacterModels.GetModifiedSkill` | l8nite/character/models.py:197-204 | the lookup succeeds exactly for the 28 names of the `SkillName` literal type |
| `CharacterModels.ModifiedSkillIsRank` | l8nite/character/models.py:155-204 | for every skill, the modified skill is the rank stored for that skill, unchanged |
| `CharacterModels.SkillNameLiteralDistinct` | l8nite/character/models.py:10-39 | the `SkillName` literal lists 28 distinct names |
| `CharacterModels.LiteralNamesAreFields` | l8nite/character/models.py:10-39 | every literal name is the field name of some skill, and no two skills share a field name |
| `CharacterModels.LiteralSkillsNamed` | l8nite/character/models.py:10-39 | the literal's names, in order, are the field names of the skills in the same order |
| `CharacterModels.ModifiedSkillOfLiteral` | l8nite/character/models.py:197-204 | for every literal name, the modified skill is the stored rank of the skill whose field has that name |
| `CharacterModels.FieldNamesInLiteral` | l8nite/character/models.py:155-195 | every skill field's name is one of the literal's names |
| `CharacterModels.SkillFieldsDistinct` | l8nite/character/models.py:155-195 | there are 28 distinct skill fields |
| `CharacterModels.SkillFieldsComplete` | l8nite/character/models.py:155-195 | every skill has a field |
| `CharacterModels.SkillGroups` | l8nite/character/models.py:155-195 | the fields come in seven blocks of four, governed in order by strength, dexterity, arcana, logic, acuity, charisma and intelligence; no skill falls under hardiness |
| `CharacterModels.AcMod` | l8nite/character/models.py:223-233 | the armor modifier is at least the sum of the four slot bonuses |
| `CharacterModels.AcModNoMisc` | l8nite/character/models.py:223-233 | with no miscellaneous items the modifier is exactly the four slot bonuses |
| `CharacterModels.AcModEquipMisc` | l8nite/character/models.py:230-232 | one more miscellaneous item with bonus n raises the modifier by exactly n |
| `CharacterModels.AcModOrderIrrelevant` | l8nite/character/models.py:230-232 | the order of the miscellaneous items does not change the modifier |
| `CharacterModels.Ac` | l8nite/character/models.py:145-147 | the armor class is at least 10 plus dexterity |
| `CharacterModels.AcEquipMisc` | l8nite/character/models.py:145-147 | equipping a miscellaneous item with bonus n raises the armor class by exactly n |
| `CharacterModels.AcFollowsDexterity` | l8nite/character/models.py:145-147 | a change of dexterity alone moves the armor class by the same amount |
| `Numerals.ParseInt` | l8nite/gear/models.py:36 | on ASCII strings of the kind modelled, `int()` succeeds exactly on non-empty strings of digits |
| `Numerals.ParsePrinted` | l8nite/gear/models.py:36 | parsing the decimal numeral of n gives n |
| `Numerals.PrintParsed` | l8nite/gear/models.py:36 | printing the value of a canonical numeral gives the numeral back |
| `GearModels.DamageDieValue` | l8nite/gear/models.py:34-36 | the die value exists exactly when the die type has at least one character after the first and all of those are digits |
| `GearModels.DieValueOfNumeral` | l8nite/gear/models.py:34-36 | any first character followed by the numeral of n reads as n |
| `GearModels.ChoiceDieTypeParses` | l8nite/gear/models.py:26-36 | every die type of the choice table reads as a die with at least one face |
| `GearModels.DieTypeValues` | l8nite/l8nite/typedefs.py:1-8 | the six die types read as 4, 6, 8, 10, 12 and 20, strictly increasing |
| `GearModels.DeclaredLengthRefusesLongDice` | l8nite/gear/models.py:26 | with `max_length=2`, only D4, D6 and D8 fit; D10, D12 and D20 are refused |
| `GearModels.AllDieTypesFit` | l8nite/l8nite/typedefs.py:1-8 | every die type fits a three-character field, and three characters are needed |
| `GearModels.RollDamage` | l8nite/gear/models.py:38-51 | an unreadable die type or a die with no faces raises; otherwise the roll is multiplier times the die outcome plus the modifier, less the disadvantage draw, plus the advantage draw, and lies between the least and greatest damage |
| `GearModels.DamageBounds` | l8nite/gear/models.py:46-51 | every roll lies in [m + modifier, m*d + modifier], widened by [-6, -1] under disadvantage and [1, 6] under advantage |
| `GearModels.PlainRollIsMultiple` | l8nite/gear/models.py:46 | with neither flag, the roll less the modifier is a multiple of the multiplier |
| `GearModels.FlagShifts` | l8nite/gear/models.py:47-50 | disadvantage lowers the roll by 1 to 6 and advantage raises it by 1 to 6 |
| `GearModels.BothFlagsApplied` | l8nite/gear/models.py:47-51 | with both flags the shift is the advantage draw less the disadvantage draw, zero only when the draws are equal |
| `GearModels.ModifierShifts` | l8nite/gear/models.py:46 | for fixed draws, raising the modifier by k raises the roll by exactly k |
| `GearModels.DamageCanBeNegative` | l8nite/gear/models.py:46-51 | the roll is not clamped: one D4 rolling 1 at disadvantage with a draw of 6 deals -5 |
| `GearModels.TwoD6Ranges` | l8nite/gear/models.py:46-51 | two D6 with modifier 1 give [3, 13], [4, 19] at advantage and [-3, 12] at disadvantage |
| `GearModels.OneDieTimesTwoIsEven` | l8nite/gear/models.py:46 | with multiplier 2 every plain roll is even, so a total of 3 never occurs, while two separate dice showing 1 and 2 total 3 |
| `GearModels.DiceTotalBounds` | l8nite/gear/models.py:40 | n dice of d faces total between n and n*d |
| `GearModels.RollDamageDice` | l8nite/gear/models.py:40 | the "XDY + Z" roll: the sum of multiplier dice plus the modifier and flag draws, within the same least and greatest damage |
| `GearModels.Clean` | l8nite/gear/models.py:73-76 | an armor record is refused exactly when its type is not "SH" and it has no class tier; otherwise it passes unchanged |
| `GearModels.CleanByType` | l8nite/gear/models.py:60-86 | shields and classed armor always pass; head and body armor pass exactly when they carry a class tier |
| `Typedefs.ChoicePairs` | l8nite/l8nite/typedefs.py:10 | the comprehension pairs every die type with itself, same length, same order |
| `Typedefs.DieTypeChoices` | l8nite/l8nite/typedefs.py:10 | the die type choices are six pairs (d, d), in the order of the die types |
| `Typedefs.RaceCodes` | l8nite/l8nite/typedefs.py:11-23 | there are eleven race codes, distinct, each two letters long |
| `Typedefs.DieTypesWellFormed` | l8nite/l8nite/typedefs.py:1-8 | six distinct die types, each D followed by a canonical numeral of a positive number |

## Left out

- Django ORM machinery: field declarations, foreign keys, one-to-one and many-to-many relations, deletion rules, migrations and queries. Records become datatypes and the misc items become a sequence of bonuses.
- `random.randint`: each draw is a parameter with its range as a precondition. Uniformity and independence cannot be stated.
- `cached_property` memoization of `ac` and `ac_mod`: both are pure functions, so a stale cached value cannot arise in the model.
- AcMod: the model assumes the commented-out slot and misc relations exist. As the file stands, `self.head` at `character/models.py:226` raises AttributeError, so `ac_mod` and, with it, `ac` always raise. `self.equipment` also raises for a character without an equipment row.
- Ac: inherits the assumption of AcMod; the model always returns a number.
- Records without behaviour: `RacialTrait`, `CharacterClass`, `RangedWeapon`, `ClassedArmor.enchantments`, `_BaseCrafting`, `Attachment`, `Enchantment`, names, costs, descriptions, speed defaults, weapon class and range choices, the character's race and class references (no rule reads them), and the character's identity, resource and point fields.
- `CastedAbility` lives in `l8nite/abilities/models.py`, which is not part of this model.
- GetModifiedSkill: `getattr` on a name that is not a skill but is some other attribute of the record (`id`, `character`, a method) returns that attribute. The model treats every non-skill name as a failure.
- DamageDieValue: Python's `int()` also accepts surrounding whitespace, a sign, underscores between digits and non-ASCII digits. The model treats those strings as failures; the die type choices contain none of them.
- Clean: the text of the `TypeError` is not modelled, and neither is the call to the parent `clean`. The message at `gear/models.py:75` has a `'%s'` placeholder that is never filled, so the real error does not carry the armor type; the armor type in `NeedsClassedArmor` is the model's own addition.
- The upper bound of `PositiveSmallIntegerField` (32767) on the multiplier and bonuses is not modelled. No rule here depends on it.

## Findings

| source | as written | input that shows it | evidently intended | confidence | as-written member | corrected member |
|---|---|---|---|---|---|---|
| l8nite/gear/models.py:46 | rolls one die and multiplies it by `damage_die_multiplier` | multiplier 2 with a D6: every plain roll is even, so 3 can never come up | "XDY + Z" (line 40): the sum of `damage_die_multiplier` separate dice, so 1 + 2 = 3 can | medium, not executed | `GearModels.OneDieTimesTwoIsEven` | `GearModels.RollDamageDice` |
| l8nite/gear/models.py:26 | `damage_die_type` declared with `max_length=2` | the choice "D10" is three characters long, so field validation refuses it, and D12 and D20 too | a length that holds every die type in the choice table, that is 3 | high, not executed | `GearModels.DeclaredLengthRefusesLongDice` | `GearModels.AllDieTypesFit` |

`GearModels.RollDamage` models line 46 as written. `GearModels.RollDamageDice` is the
corrected roll. Its loop sums the dice, and it is proved to stay within the same
least and greatest damage.

Field declarations are otherwise not modelled. `GearModels.DieTypeValues` and
`GearModels.RollDamage` accept every die type of the choice table, as a three-character
field would.
