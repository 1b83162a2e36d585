/**
 * The character rules of `l8nite/character/models.py`: racial attribute
 * limits, skill lookup and armor class. The database records become plain
 * datatypes; the derived values become functions of them.
 */
module CharacterModels {
  import opened Wrappers
  import opened Typedefs

  // ---------------------------------------------------------------------
  // Attributes
  // ---------------------------------------------------------------------

  /** The eight attributes, by their three-letter short names. */
  datatype ShortAttName = Har | Str | Dex | Arc | Log | Acu | Cha | Int

  /** The short names as the code spells them. */
  const ShortAttNames: seq<string> := ["har", "str", "dex", "arc", "log", "acu", "cha", "int"]

  function ShortName(a: ShortAttName): (s: string)
    ensures s in ShortAttNames
  {
    match a
    case Har => "har"
    case Str => "str"
    case Dex => "dex"
    case Arc => "arc"
    case Log => "log"
    case Acu => "acu"
    case Cha => "cha"
    case Int => "int"
  }

  // ---------------------------------------------------------------------
  // Races and attribute limits
  // ---------------------------------------------------------------------

  /**
   * A race: its code (one of the race codes), its speed and one base value
   * per attribute. Base values are set once when the races are loaded.
   */
  datatype CharacterRace = CharacterRace(
    name: string,
    speed: nat,
    baseHar: nat,
    baseStr: nat,
    baseDex: nat,
    baseArc: nat,
    baseLog: nat,
    baseAcu: nat,
    baseCha: nat,
    baseInt: nat)

  /** The base value a race gives an attribute. */
  function Base(race: CharacterRace, a: ShortAttName): nat {
    match a
    case Har => race.baseHar
    case Str => race.baseStr
    case Dex => race.baseDex
    case Arc => race.baseArc
    case Log => race.baseLog
    case Acu => race.baseAcu
    case Cha => race.baseCha
    case Int => race.baseInt
  }

  /** Attribute lookup by field name on a race: `None` when the race has no such field. */
  function BaseField(race: CharacterRace, field: string): Option<nat> {
    if field == "base_har" then Some(race.baseHar)
    else if field == "base_str" then Some(race.baseStr)
    else if field == "base_dex" then Some(race.baseDex)
    else if field == "base_arc" then Some(race.baseArc)
    else if field == "base_log" then Some(race.baseLog)
    else if field == "base_acu" then Some(race.baseAcu)
    else if field == "base_cha" then Some(race.baseCha)
    else if field == "base_int" then Some(race.baseInt)
    else None
  }

  /**
   * `get_limit`: the base value stored in the field `base_<att>`, or 0 when
   * there is no such field, plus 10.
   */
  function GetLimit(race: CharacterRace, att: string): (r: int)
    ensures r >= 10
  {
    (match BaseField(race, "base_" + att) case Some(v) => v case None => 0) + 10
  }

  /** The field name `base_<att>` of each short name is the race's base field. */
  lemma BaseFieldNames()
    ensures "base_" + "har" == "base_har"
    ensures "base_" + "str" == "base_str"
    ensures "base_" + "dex" == "base_dex"
    ensures "base_" + "arc" == "base_arc"
    ensures "base_" + "log" == "base_log"
    ensures "base_" + "acu" == "base_acu"
    ensures "base_" + "cha" == "base_cha"
    ensures "base_" + "int" == "base_int"
  {
  }

  /** For each of the eight attributes the limit is the race's base value plus 10. */
  lemma LimitOfAttribute(race: CharacterRace, a: ShortAttName)
    ensures GetLimit(race, ShortName(a)) == Base(race, a) + 10
  {
    BaseFieldNames();
  }

  lemma PrefixCancel(p: string, x: string, y: string)
    requires p + x == p + y
    ensures x == y
  {
    assert x == (p + x)[|p|..];
    assert y == (p + y)[|p|..];
  }

  /** A name that is not one of the eight attributes finds no field and gets the limit 10. */
  lemma LimitOfUnknownName(race: CharacterRace, att: string)
    requires att !in ShortAttNames
    ensures GetLimit(race, att) == 10
  {
    forall s | s in ShortAttNames
      ensures "base_" + att != "base_" + s
    {
      if "base_" + att == "base_" + s {
        PrefixCancel("base_", att, s);
      }
    }
    BaseFieldNames();
    assert BaseField(race, "base_" + att) == None;
  }

  // ---------------------------------------------------------------------
  // Skills
  // ---------------------------------------------------------------------

  /** The 28 skills, in the order of the skill fields. */
  datatype SkillName =
      SmallArms
    | BigArms
    | Melee
    | Demolitions
    | Sneak
    | Athletics
    | SlightOfHand
    | Disguise
    | Attack
    | Support
    | Healing
    | Summoning
    | Piloting
    | Hacking
    | Security
    | Kinetic
    | Survival
    | Perception
    | Insight
    | Investigation
    | Deception
    | Intimidation
    | Persuasion
    | Performance
    | Medicine
    | Magic
    | History
    | Technology

  /** The skill names of the `SkillName` literal type, in its order. */
  const SkillNameLiteral: seq<string> := [
    "small_arms", "big_arms", "melee", "demolitions",
    "sneak", "athletics", "slight_of_hand", "disguise",
    "attack", "support", "healing", "summoning",
    "piloting", "hacking", "security", "kinetic",
    "survival", "perception", "insight", "investigation",
    "deception", "intimidation", "persuasion", "performance",
    "magic", "history", "medicine", "technology"
  ]

  /** The skill fields in declaration order. */
  const SkillFields: seq<SkillName> := [
    SmallArms, BigArms, Melee, Demolitions,
    Sneak, Athletics, SlightOfHand, Disguise,
    Attack, Support, Healing, Summoning,
    Piloting, Hacking, Security, Kinetic,
    Survival, Perception, Insight, Investigation,
    Deception, Intimidation, Persuasion, Performance,
    Medicine, Magic, History, Technology
  ]

  /** The attribute whose comment heads each block of four skill fields, in order. */
  const GoverningGroups: seq<ShortAttName> := [Str, Dex, Arc, Log, Acu, Cha, Int]

  /** The name of the field that stores a skill's rank. */
  function FieldName(s: SkillName): string {
    match s
    case SmallArms => "small_arms"
    case BigArms => "big_arms"
    case Melee => "melee"
    case Demolitions => "demolitions"
    case Sneak => "sneak"
    case Athletics => "athletics"
    case SlightOfHand => "slight_of_hand"
    case Disguise => "disguise"
    case Attack => "attack"
    case Support => "support"
    case Healing => "healing"
    case Summoning => "summoning"
    case Piloting => "piloting"
    case Hacking => "hacking"
    case Security => "security"
    case Kinetic => "kinetic"
    case Survival => "survival"
    case Perception => "perception"
    case Insight => "insight"
    case Investigation => "investigation"
    case Deception => "deception"
    case Intimidation => "intimidation"
    case Persuasion => "persuasion"
    case Performance => "performance"
    case Medicine => "medicine"
    case Magic => "magic"
    case History => "history"
    case Technology => "technology"
  }

  /** The attribute that governs a skill, by the comment above its field. */
  function Governing(s: SkillName): ShortAttName {
    match s
    case SmallArms | BigArms | Melee | Demolitions => Str
    case Sneak | Athletics | SlightOfHand | Disguise => Dex
    case Attack | Support | Healing | Summoning => Arc
    case Piloting | Hacking | Security | Kinetic => Log
    case Survival | Perception | Insight | Investigation => Acu
    case Deception | Intimidation | Persuasion | Performance => Cha
    case Medicine | Magic | History | Technology => Int
  }

  /** The skill ranks of one character. */
  datatype CharacterSkills = CharacterSkills(
    smallArms: nat,
    bigArms: nat,
    melee: nat,
    demolitions: nat,
    sneak: nat,
    athletics: nat,
    slightOfHand: nat,
    disguise: nat,
    attack: nat,
    support: nat,
    healing: nat,
    summoning: nat,
    piloting: nat,
    hacking: nat,
    security: nat,
    kinetic: nat,
    survival: nat,
    perception: nat,
    insight: nat,
    investigation: nat,
    deception: nat,
    intimidation: nat,
    persuasion: nat,
    performance: nat,
    medicine: nat,
    magic: nat,
    history: nat,
    technology: nat)

  /** The rank stored for a skill. */
  function Rank(skills: CharacterSkills, s: SkillName): nat {
    match s
    case SmallArms => skills.smallArms
    case BigArms => skills.bigArms
    case Melee => skills.melee
    case Demolitions => skills.demolitions
    case Sneak => skills.sneak
    case Athletics => skills.athletics
    case SlightOfHand => skills.slightOfHand
    case Disguise => skills.disguise
    case Attack => skills.attack
    case Support => skills.support
    case Healing => skills.healing
    case Summoning => skills.summoning
    case Piloting => skills.piloting
    case Hacking => skills.hacking
    case Security => skills.security
    case Kinetic => skills.kinetic
    case Survival => skills.survival
    case Perception => skills.perception
    case Insight => skills.insight
    case Investigation => skills.investigation
    case Deception => skills.deception
    case Intimidation => skills.intimidation
    case Persuasion => skills.persuasion
    case Performance => skills.performance
    case Medicine => skills.medicine
    case Magic => skills.magic
    case History => skills.history
    case Technology => skills.technology
  }

  /** Attribute lookup by name on a skills record: `None` (an AttributeError) when there is no such field. */
  function SkillField(skills: CharacterSkills, name: string): Option<nat> {
    if name == "small_arms" then Some(skills.smallArms)
    else if name == "big_arms" then Some(skills.bigArms)
    else if name == "melee" then Some(skills.melee)
    else if name == "demolitions" then Some(skills.demolitions)
    else if name == "sneak" then Some(skills.sneak)
    else if name == "athletics" then Some(skills.athletics)
    else if name == "slight_of_hand" then Some(skills.slightOfHand)
    else if name == "disguise" then Some(skills.disguise)
    else if name == "attack" then Some(skills.attack)
    else if name == "support" then Some(skills.support)
    else if name == "healing" then Some(skills.healing)
    else if name == "summoning" then Some(skills.summoning)
    else if name == "piloting" then Some(skills.piloting)
    else if name == "hacking" then Some(skills.hacking)
    else if name == "security" then Some(skills.security)
    else if name == "kinetic" then Some(skills.kinetic)
    else if name == "survival" then Some(skills.survival)
    else if name == "perception" then Some(skills.perception)
    else if name == "insight" then Some(skills.insight)
    else if name == "investigation" then Some(skills.investigation)
    else if name == "deception" then Some(skills.deception)
    else if name == "intimidation" then Some(skills.intimidation)
    else if name == "persuasion" then Some(skills.persuasion)
    else if name == "performance" then Some(skills.performance)
    else if name == "medicine" then Some(skills.medicine)
    else if name == "magic" then Some(skills.magic)
    else if name == "history" then Some(skills.history)
    else if name == "technology" then Some(skills.technology)
    else None
  }

  /** The skills in the order of the literal type's names. */
  const LiteralSkills: seq<SkillName> := [
    SmallArms, BigArms, Melee, Demolitions,
    Sneak, Athletics, SlightOfHand, Disguise,
    Attack, Support, Healing, Summoning,
    Piloting, Hacking, Security, Kinetic,
    Survival, Perception, Insight, Investigation,
    Deception, Intimidation, Persuasion, Performance,
    Magic, History, Medicine, Technology
  ]

  /** The position of a skill's name in the literal type. */
  function LiteralPosition(s: SkillName): (i: nat)
    ensures i < |LiteralSkills| == |SkillNameLiteral|
    ensures LiteralSkills[i] == s && SkillNameLiteral[i] == FieldName(s)
  {
    match s
    case SmallArms => 0
    case BigArms => 1
    case Melee => 2
    case Demolitions => 3
    case Sneak => 4
    case Athletics => 5
    case SlightOfHand => 6
    case Disguise => 7
    case Attack => 8
    case Support => 9
    case Healing => 10
    case Summoning => 11
    case Piloting => 12
    case Hacking => 13
    case Security => 14
    case Kinetic => 15
    case Survival => 16
    case Perception => 17
    case Insight => 18
    case Investigation => 19
    case Deception => 20
    case Intimidation => 21
    case Persuasion => 22
    case Performance => 23
    case Magic => 24
    case History => 25
    case Medicine => 26
    case Technology => 27
  }

  /**
   * `get_modified_skill`: the stored rank of the named skill, unmodified.
   * It succeeds exactly for the names of the skill literal type.
   */
  function GetModifiedSkill(skills: CharacterSkills, skill: string): (r: Option<nat>)
    ensures r.Some? <==> skill in SkillNameLiteral
  {
    SkillField(skills, skill)
  }

  /** For every skill, the modified skill is the rank stored for that skill. */
  lemma ModifiedSkillIsRank(skills: CharacterSkills, s: SkillName)
    ensures GetModifiedSkill(skills, FieldName(s)) == Some(Rank(skills, s))
  {
  }

  /** The literal type lists 28 distinct names. */
  lemma SkillNameLiteralDistinct()
    ensures |SkillNameLiteral| == 28 && Distinct(SkillNameLiteral)
  {
  }

  /** Every skill field's name is one of the literal names. */
  lemma FieldNamesInLiteral()
    ensures forall s :: FieldName(s) in SkillNameLiteral
  {
  }

  lemma LiteralSkillsDistinct()
    ensures Distinct(LiteralSkills)
  {
  }

  /** Each literal name is the field name of the skill at the same position. */
  lemma LiteralSkillsNamed()
    ensures |LiteralSkills| == |SkillNameLiteral|
    ensures forall i :: 0 <= i < |LiteralSkills| ==> FieldName(LiteralSkills[i]) == SkillNameLiteral[i]
  {
    LiteralSkillsDistinct();
    forall i | 0 <= i < |LiteralSkills| ensures FieldName(LiteralSkills[i]) == SkillNameLiteral[i] {
      var j := LiteralPosition(LiteralSkills[i]);
      assert i == j;
    }
  }

  /** Every literal name is the field name of exactly one skill. */
  lemma LiteralNamesAreFields()
    ensures forall x :: x in SkillNameLiteral ==> exists s :: FieldName(s) == x
    ensures forall s, s' :: FieldName(s) == FieldName(s') ==> s == s'
  {
    LiteralSkillsNamed();
    SkillNameLiteralDistinct();
    forall x | x in SkillNameLiteral ensures exists s :: FieldName(s) == x {
      var i :| 0 <= i < |SkillNameLiteral| && SkillNameLiteral[i] == x;
      assert FieldName(LiteralSkills[i]) == x;
    }
    forall s, s' | FieldName(s) == FieldName(s') ensures s == s' {
      var i, j := LiteralPosition(s), LiteralPosition(s');
      assert SkillNameLiteral[i] == SkillNameLiteral[j];
    }
  }

  /** For every literal name, the modified skill is the rank of the one skill with that field. */
  lemma ModifiedSkillOfLiteral(skills: CharacterSkills, x: string)
    requires x in SkillNameLiteral
    ensures exists s :: FieldName(s) == x && GetModifiedSkill(skills, x) == Some(Rank(skills, s))
  {
    LiteralNamesAreFields();
    var s :| FieldName(s) == x;
    ModifiedSkillIsRank(skills, s);
  }

  /** The 28 skill fields are distinct. */
  lemma SkillFieldsDistinct()
    ensures |SkillFields| == 28 && Distinct(SkillFields)
  {
  }

  /** The position of a skill's field among the skill fields. */
  function FieldPosition(s: SkillName): (i: nat)
    ensures i < |SkillFields| && SkillFields[i] == s
  {
    match s
    case SmallArms => 0
    case BigArms => 1
    case Melee => 2
    case Demolitions => 3
    case Sneak => 4
    case Athletics => 5
    case SlightOfHand => 6
    case Disguise => 7
    case Attack => 8
    case Support => 9
    case Healing => 10
    case Summoning => 11
    case Piloting => 12
    case Hacking => 13
    case Security => 14
    case Kinetic => 15
    case Survival => 16
    case Perception => 17
    case Insight => 18
    case Investigation => 19
    case Deception => 20
    case Intimidation => 21
    case Persuasion => 22
    case Performance => 23
    case Medicine => 24
    case Magic => 25
    case History => 26
    case Technology => 27
  }

  /** Every skill has a field. */
  lemma SkillFieldsComplete()
    ensures forall s :: s in SkillFields
  {
    forall s: SkillName ensures s in SkillFields {
      assert SkillFields[FieldPosition(s)] == s;
    }
  }

  /** The fields come in seven blocks of four, each governed by one attribute; none by hardiness. */
  lemma SkillGroups()
    ensures forall i :: 0 <= i < |SkillFields| ==> Governing(SkillFields[i]) == GoverningGroups[i / 4]
    ensures forall s :: Governing(s) != Har
  {
  }

  // ---------------------------------------------------------------------
  // Equipment and armor class
  // ---------------------------------------------------------------------

  /**
   * The armor bonuses of what a character has equipped: one per slot, and
   * one per miscellaneous item (rings, amulets, ...).
   */
  datatype CharacterEquipment = CharacterEquipment(
    head: nat,
    body: nat,
    leftHand: nat,
    rightHand: nat,
    miscEquipped: seq<nat>)

  /** Python's `sum` over a list of bonuses. */
  function Sum(xs: seq<nat>): nat {
    if xs == [] then 0 else xs[0] + Sum(xs[1..])
  }

  lemma {:induction false} SumAppend(xs: seq<nat>, n: nat)
    ensures Sum(xs + [n]) == Sum(xs) + n
  {
    if xs != [] {
      assert (xs + [n])[1..] == xs[1..] + [n];
      SumAppend(xs[1..], n);
    }
  }

  lemma {:induction false} SumRemove(xs: seq<nat>, k: nat)
    requires k < |xs|
    ensures Sum(xs) == xs[k] + Sum(xs[..k] + xs[k + 1..])
  {
    if k > 0 {
      SumRemove(xs[1..], k - 1);
      assert xs[1..][..k - 1] + xs[1..][k..] == (xs[..k] + xs[k + 1..])[1..];
    } else {
      assert xs[..0] + xs[1..] == xs[1..];
    }
  }

  /** The sum does not depend on the order of the items (the misc query has none). */
  lemma {:induction false} SumPermutation(xs: seq<nat>, ys: seq<nat>)
    requires multiset(xs) == multiset(ys)
    ensures Sum(xs) == Sum(ys)
  {
    if xs != [] {
      assert xs[0] in multiset(ys);
      var k :| 0 <= k < |ys| && ys[k] == xs[0];
      var rest := ys[..k] + ys[k + 1..];
      assert ys == ys[..k] + [ys[k]] + ys[k + 1..];
      assert xs == [xs[0]] + xs[1..];
      assert multiset(ys) == multiset(ys[..k]) + multiset([ys[k]]) + multiset(ys[k + 1..]);
      assert multiset(rest) == multiset(ys[..k]) + multiset(ys[k + 1..]);
      assert multiset(xs) == multiset([xs[0]]) + multiset(xs[1..]);
      assert multiset(xs[1..]) == multiset(xs) - multiset{xs[0]};
      assert multiset(rest) == multiset(ys) - multiset{ys[k]};
      SumRemove(ys, k);
      SumPermutation(xs[1..], rest);
    } else {
      assert |ys| == |multiset(ys)| == 0;
    }
  }

  /** `ac_mod`: the armor bonuses of the four slots and of every miscellaneous item. */
  function AcMod(eq: CharacterEquipment): (r: nat)
    ensures r >= eq.head + eq.body + eq.leftHand + eq.rightHand
  {
    eq.head + eq.body + eq.leftHand + eq.rightHand + Sum(eq.miscEquipped)
  }

  /** With no miscellaneous items, only the four slots count. */
  lemma AcModNoMisc(eq: CharacterEquipment)
    requires eq.miscEquipped == []
    ensures AcMod(eq) == eq.head + eq.body + eq.leftHand + eq.rightHand
  {
  }

  /** Equipping one more miscellaneous item with bonus n raises `ac_mod` by exactly n. */
  lemma AcModEquipMisc(eq: CharacterEquipment, n: nat)
    ensures AcMod(eq.(miscEquipped := eq.miscEquipped + [n])) == AcMod(eq) + n
  {
    SumAppend(eq.miscEquipped, n);
  }

  /** Reordering the miscellaneous items leaves `ac_mod` unchanged. */
  lemma AcModOrderIrrelevant(eq: CharacterEquipment, misc: seq<nat>)
    requires multiset(misc) == multiset(eq.miscEquipped)
    ensures AcMod(eq.(miscEquipped := misc)) == AcMod(eq)
  {
    SumPermutation(misc, eq.miscEquipped);
  }

  /** A character: its current attribute values and the records it owns. */
  datatype Character = Character(
    hardiness: nat,
    strength: nat,
    dexterity: nat,
    arcana: nat,
    logic: nat,
    acuity: nat,
    charisma: nat,
    intelligence: nat,
    equipment: CharacterEquipment,
    skills: CharacterSkills)

  /** The current value of an attribute. */
  function Attribute(c: Character, a: ShortAttName): nat {
    match a
    case Har => c.hardiness
    case Str => c.strength
    case Dex => c.dexterity
    case Arc => c.arcana
    case Log => c.logic
    case Acu => c.acuity
    case Cha => c.charisma
    case Int => c.intelligence
  }

  /** `ac`: 10, plus dexterity, plus the equipment's armor modifier; never below 10 + dexterity. */
  function Ac(c: Character): (r: int)
    ensures r >= 10 + Attribute(c, Dex)
  {
    10 + c.dexterity + AcMod(c.equipment)
  }

  /** Equipping a miscellaneous item with bonus n raises the armor class by exactly n. */
  lemma AcEquipMisc(c: Character, n: nat)
    ensures Ac(c.(equipment := c.equipment.(miscEquipped := c.equipment.miscEquipped + [n])))
         == Ac(c) + n
  {
    AcModEquipMisc(c.equipment, n);
  }

  /** Changing only the dexterity moves the armor class by the same amount. */
  lemma AcFollowsDexterity(c: Character, dex: nat)
    ensures Ac(c.(dexterity := dex)) - Ac(c) == dex - c.dexterity
  {
  }
}
