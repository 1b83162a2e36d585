/**
 * The gear rules of `l8nite/gear/models.py`: reading a weapon's die type,
 * rolling its damage, and validating armor. Random draws are parameters:
 * each stands for the value `random.randint` returned.
 */
module GearModels {
  import opened Wrappers
  import opened Numerals
  import opened Typedefs

  // ---------------------------------------------------------------------
  // Weapons and their dice
  // ---------------------------------------------------------------------

  /** A weapon's damage: `damageDieMultiplier` times a die of type `damageDieType` ("D8"). */
  datatype Weapon = Weapon(name: string, damageDieMultiplier: nat, damageDieType: string)

  /** Python's `t[1:]`: everything after the first character, and "" for "". */
  function DropFirst(t: string): (r: string)
    ensures |t| > 0 ==> [t[0]] + r == t
    ensures |t| == 0 ==> r == []
  {
    if |t| == 0 then [] else t[1..]
  }

  /**
   * `damage_die_value`: the number written after the die type's first
   * character, whatever that character is; `None` where `int` raises a
   * ValueError (nothing after it, or something that is not a digit).
   */
  function DamageDieValue(dieType: string): (r: Option<nat>)
    ensures r.Some? <==> |dieType| >= 2 && AllDigits(dieType[1..])
  {
    ParseInt(DropFirst(dieType))
  }

  /** Any leading character followed by the numeral of n reads as n. */
  lemma DieValueOfNumeral(c: char, n: nat)
    ensures DamageDieValue([c] + ToDecimal(n)) == Some(n)
  {
    assert DropFirst([c] + ToDecimal(n)) == ToDecimal(n);
    ParsePrinted(n);
  }

  /** A die type of the choice table reads as a die with at least one face. */
  lemma ChoiceDieTypeParses(dieType: string)
    requires dieType in DieTypes
    ensures DamageDieValue(dieType).Some? && DamageDieValue(dieType).value >= 1
  {
    DieTypesWellFormed();
    assert DropFirst(dieType) == dieType[1..];
  }

  /** The six die types read as 4, 6, 8, 10, 12 and 20: strictly increasing. */
  lemma DieTypeValues()
    ensures |DieTypes| == 6
    ensures forall i :: 0 <= i < |DieTypes| ==> DamageDieValue(DieTypes[i]).Some?
    ensures DamageDieValue(DieTypes[0]) == Some(4) && DamageDieValue(DieTypes[1]) == Some(6)
    ensures DamageDieValue(DieTypes[2]) == Some(8) && DamageDieValue(DieTypes[3]) == Some(10)
    ensures DamageDieValue(DieTypes[4]) == Some(12) && DamageDieValue(DieTypes[5]) == Some(20)
    ensures forall i, j :: 0 <= i < j < |DieTypes| ==>
      DamageDieValue(DieTypes[i]).value < DamageDieValue(DieTypes[j]).value
  {
    DieValueOfNumeral('D', 4);
    DieValueOfNumeral('D', 6);
    DieValueOfNumeral('D', 8);
    DieValueOfNumeral('D', 10);
    DieValueOfNumeral('D', 12);
    DieValueOfNumeral('D', 20);
  }

  /** The length check Django applies to `damage_die_type` as declared: at most two characters. */
  predicate DieTypeFitsAsDeclared(dieType: string) {
    |dieType| <= 2
  }

  /** As declared, the field refuses D10, D12 and D20: only the first three die types fit. */
  lemma DeclaredLengthRefusesLongDice()
    ensures forall i :: 0 <= i < |DieTypes| ==> (DieTypeFitsAsDeclared(DieTypes[i]) <==> i < 3)
  {
  }

  /** The length the die type field needs: three characters, the longest die type. */
  predicate DieTypeFits(dieType: string) {
    |dieType| <= 3
  }

  /** Every die type of the choice table fits a three-character field, and the longest needs all three. */
  lemma AllDieTypesFit()
    ensures forall i :: 0 <= i < |DieTypes| ==> DieTypeFits(DieTypes[i])
    ensures exists i :: 0 <= i < |DieTypes| && |DieTypes[i]| == 3
  {
    assert |DieTypes[3]| == 3;
  }

  // ---------------------------------------------------------------------
  // Damage rolls
  // ---------------------------------------------------------------------

  /** Why a roll raises: the die type is not a numeral, or the die has no faces. */
  datatype RollError = InvalidDieType | EmptyDieRange

  /** A die outcome `randint(1, d)` can return for the weapon's die, when the die can be rolled. */
  predicate DieOutcomeInRange(dieType: string, outcome: int) {
    match DamageDieValue(dieType)
    case Some(d) => d >= 1 ==> 1 <= outcome <= d
    case None => true
  }

  /**
   * The damage of one roll: `multiplier` times one die outcome, plus the
   * modifier, minus the disadvantage draw when rolling at disadvantage,
   * plus the advantage draw when rolling at advantage.
   */
  function Damage(multiplier: nat, die: int, modifier: int, disadvantage: bool, advantage: bool,
                  disadvantageRoll: int, advantageRoll: int): int
  {
    multiplier * die + modifier
      - (if disadvantage then disadvantageRoll else 0)
      + (if advantage then advantageRoll else 0)
  }

  /** The least damage a weapon with `multiplier` dice can deal with these flags. */
  function MinDamage(multiplier: nat, modifier: int, disadvantage: bool, advantage: bool): int {
    multiplier + modifier - (if disadvantage then 6 else 0) + (if advantage then 1 else 0)
  }

  /** The greatest damage a weapon with `multiplier` dice of `faces` faces can deal with these flags. */
  function MaxDamage(multiplier: nat, faces: nat, modifier: int, disadvantage: bool, advantage: bool): int {
    multiplier * faces + modifier - (if disadvantage then 1 else 0) + (if advantage then 6 else 0)
  }

  lemma MultiplyMonotone(m: nat, x: int, y: int)
    requires x <= y
    ensures m * x <= m * y
  {
    assert m * y - m * x == m * (y - x);
  }

  /** Every roll lies between the least and the greatest damage. */
  lemma DamageBounds(multiplier: nat, faces: nat, die: int, modifier: int, disadvantage: bool,
                     advantage: bool, disadvantageRoll: int, advantageRoll: int)
    requires 1 <= die <= faces
    requires disadvantage ==> 1 <= disadvantageRoll <= 6
    requires advantage ==> 1 <= advantageRoll <= 6
    ensures MinDamage(multiplier, modifier, disadvantage, advantage)
         <= Damage(multiplier, die, modifier, disadvantage, advantage, disadvantageRoll, advantageRoll)
         <= MaxDamage(multiplier, faces, modifier, disadvantage, advantage)
  {
    MultiplyMonotone(multiplier, 1, die);
    MultiplyMonotone(multiplier, die, faces);
  }

  lemma {:induction false} ProductAtLeastFactor(a: int, m: int)
    requires a > 0 && m > 0
    ensures a * m >= m
  {
    if a > 1 {
      ProductAtLeastFactor(a - 1, m);
      assert a * m == (a - 1) * m + m;
    }
  }

  lemma MultipleHasNoRemainder(k: int, m: nat)
    requires m > 0
    ensures (k * m) % m == 0
  {
    var q := (k * m) / m;
    assert k * m == q * m + (k * m) % m;
    assert (k - q) * m == k * m - q * m;
    if k - q > 0 {
      ProductAtLeastFactor(k - q, m);
    } else if k - q < 0 {
      ProductAtLeastFactor(q - k, m);
    }
  }

  /** Without advantage or disadvantage, the roll less the modifier is a multiple of the multiplier. */
  lemma PlainRollIsMultiple(multiplier: nat, die: int, modifier: int, disadvantageRoll: int, advantageRoll: int)
    requires multiplier > 0
    ensures (Damage(multiplier, die, modifier, false, false, disadvantageRoll, advantageRoll) - modifier)
            % multiplier == 0
  {
    var q := Damage(multiplier, die, modifier, false, false, disadvantageRoll, advantageRoll) - modifier;
    assert q == die * multiplier;
    MultipleHasNoRemainder(die, multiplier);
  }

  /** Disadvantage lowers the roll by its draw, advantage raises it by its draw. */
  lemma FlagShifts(multiplier: nat, die: int, modifier: int, disadvantageRoll: int, advantageRoll: int)
    requires 1 <= disadvantageRoll <= 6 && 1 <= advantageRoll <= 6
    ensures var plain := Damage(multiplier, die, modifier, false, false, disadvantageRoll, advantageRoll);
      && plain - 6 <= Damage(multiplier, die, modifier, true, false, disadvantageRoll, advantageRoll) <= plain - 1
      && plain + 1 <= Damage(multiplier, die, modifier, false, true, disadvantageRoll, advantageRoll) <= plain + 6
  {
  }

  /**
   * With both flags the two draws are both applied: the shift is the
   * advantage draw less the disadvantage draw, zero only when they are equal.
   */
  lemma BothFlagsApplied(multiplier: nat, die: int, modifier: int, disadvantageRoll: int, advantageRoll: int)
    ensures var shift := Damage(multiplier, die, modifier, true, true, disadvantageRoll, advantageRoll)
                       - Damage(multiplier, die, modifier, false, false, disadvantageRoll, advantageRoll);
      shift == advantageRoll - disadvantageRoll && (shift == 0 <==> advantageRoll == disadvantageRoll)
  {
  }

  /** For fixed draws, raising the modifier by k raises the roll by exactly k. */
  lemma ModifierShifts(multiplier: nat, die: int, modifier: int, k: int, disadvantage: bool, advantage: bool,
                       disadvantageRoll: int, advantageRoll: int)
    ensures Damage(multiplier, die, modifier + k, disadvantage, advantage, disadvantageRoll, advantageRoll)
         == Damage(multiplier, die, modifier, disadvantage, advantage, disadvantageRoll, advantageRoll) + k
  {
  }

  /** The roll is not clamped: one D4 at disadvantage, rolling 1 and drawing 6, deals -5. */
  lemma DamageCanBeNegative()
    ensures Damage(1, 1, 0, true, false, 6, 0) == -5
  {
  }

  /**
   * `roll_damage`: reads the die, rolls one die and multiplies it by the
   * multiplier, adds the modifier, then applies disadvantage and advantage.
   */
  method RollDamage(w: Weapon, modifier: int, disadvantage: bool, advantage: bool,
                    dieRoll: int, disadvantageRoll: int, advantageRoll: int)
    returns (r: Result<int, RollError>)
    requires DieOutcomeInRange(w.damageDieType, dieRoll)
    requires disadvantage ==> 1 <= disadvantageRoll <= 6
    requires advantage ==> 1 <= advantageRoll <= 6
    ensures DamageDieValue(w.damageDieType).None? ==> r == Err(InvalidDieType)
    ensures DamageDieValue(w.damageDieType) == Some(0) ==> r == Err(EmptyDieRange)
    ensures r.Ok? <==> DamageDieValue(w.damageDieType).Some? && DamageDieValue(w.damageDieType).value >= 1
    ensures r.Ok? ==> r.value == Damage(w.damageDieMultiplier, dieRoll, modifier, disadvantage, advantage,
                                        disadvantageRoll, advantageRoll)
    ensures r.Ok? ==> MinDamage(w.damageDieMultiplier, modifier, disadvantage, advantage) <= r.value
                   <= MaxDamage(w.damageDieMultiplier, DamageDieValue(w.damageDieType).value, modifier,
                                disadvantage, advantage)
  {
    var faces := DamageDieValue(w.damageDieType);
    if faces.None? {
      return Err(InvalidDieType);
    }
    if faces.value < 1 {
      return Err(EmptyDieRange);
    }
    var roll := w.damageDieMultiplier * dieRoll + modifier;
    if disadvantage {
      roll := roll - disadvantageRoll;
    }
    if advantage {
      roll := roll + advantageRoll;
    }
    DamageBounds(w.damageDieMultiplier, faces.value, dieRoll, modifier, disadvantage, advantage,
                 disadvantageRoll, advantageRoll);
    r := Ok(roll);
  }

  /**
   * Two D6 with modifier 1: [3, 13] plainly, [4, 19] at advantage,
   * [-3, 12] at disadvantage.
   */
  lemma TwoD6Ranges(die: int, disadvantageRoll: int, advantageRoll: int)
    requires 1 <= die <= 6 && 1 <= disadvantageRoll <= 6 && 1 <= advantageRoll <= 6
    ensures 3 <= Damage(2, die, 1, false, false, disadvantageRoll, advantageRoll) <= 13
    ensures 4 <= Damage(2, die, 1, false, true, disadvantageRoll, advantageRoll) <= 19
    ensures -3 <= Damage(2, die, 1, true, false, disadvantageRoll, advantageRoll) <= 12
  {
  }

  // ---------------------------------------------------------------------
  // Damage as the docstring describes it: the sum of several dice
  // ---------------------------------------------------------------------

  /** The total of a sequence of die outcomes. */
  function DiceTotal(dice: seq<int>): int {
    if dice == [] then 0 else DiceTotal(dice[..|dice| - 1]) + dice[|dice| - 1]
  }

  /** n dice of `faces` faces total between n and n * faces. */
  lemma {:induction false} DiceTotalBounds(dice: seq<int>, faces: nat)
    requires forall i :: 0 <= i < |dice| ==> 1 <= dice[i] <= faces
    ensures |dice| <= DiceTotal(dice) <= |dice| * faces
  {
    if dice != [] {
      DiceTotalBounds(dice[..|dice| - 1], faces);
    }
  }

  /**
   * Damage as "XDY + Z": the sum of `damageDieMultiplier` separate dice, then
   * the modifier, disadvantage and advantage as before.
   */
  method RollDamageDice(w: Weapon, modifier: int, disadvantage: bool, advantage: bool,
                        dice: seq<int>, disadvantageRoll: int, advantageRoll: int)
    returns (r: Result<int, RollError>)
    requires |dice| == w.damageDieMultiplier
    requires forall i :: 0 <= i < |dice| ==> DieOutcomeInRange(w.damageDieType, dice[i])
    requires disadvantage ==> 1 <= disadvantageRoll <= 6
    requires advantage ==> 1 <= advantageRoll <= 6
    ensures r.Ok? <==> DamageDieValue(w.damageDieType).Some? && DamageDieValue(w.damageDieType).value >= 1
    ensures r.Ok? ==> r.value == DiceTotal(dice) + modifier
                                 - (if disadvantage then disadvantageRoll else 0)
                                 + (if advantage then advantageRoll else 0)
    ensures r.Ok? ==> MinDamage(w.damageDieMultiplier, modifier, disadvantage, advantage) <= r.value
                   <= MaxDamage(w.damageDieMultiplier, DamageDieValue(w.damageDieType).value, modifier,
                                disadvantage, advantage)
  {
    var faces := DamageDieValue(w.damageDieType);
    if faces.None? {
      return Err(InvalidDieType);
    }
    if faces.value < 1 {
      return Err(EmptyDieRange);
    }
    var d := faces.value;
    var total := 0;
    var i := 0;
    while i < |dice|
      invariant 0 <= i <= |dice|
      invariant total == DiceTotal(dice[..i])
      invariant i <= total <= i * d
    {
      assert dice[..i + 1][..i] == dice[..i];
      assert DieOutcomeInRange(w.damageDieType, dice[i]);
      total := total + dice[i];
      i := i + 1;
    }
    assert dice[..i] == dice;
    var roll := total + modifier;
    if disadvantage {
      roll := roll - disadvantageRoll;
    }
    if advantage {
      roll := roll + advantageRoll;
    }
    r := Ok(roll);
  }

  /**
   * As written, two D6 can never total 3 (one die times two is even), while
   * two separate D6 showing 1 and 2 do.
   */
  lemma OneDieTimesTwoIsEven(die: int, disadvantageRoll: int, advantageRoll: int)
    ensures Damage(2, die, 0, false, false, disadvantageRoll, advantageRoll) % 2 == 0
    ensures Damage(2, die, 0, false, false, disadvantageRoll, advantageRoll) != 3
    ensures DiceTotal([1, 2]) == 3
  {
    assert Damage(2, die, 0, false, false, disadvantageRoll, advantageRoll) == 2 * die;
  }

  // ---------------------------------------------------------------------
  // Armor
  // ---------------------------------------------------------------------

  /**
   * An armor record. `armorType` is "HE" (head), "BO" (body) or "SH"
   * (shield); `armorClass` is the class tier of a classed armor ("HA", "MA",
   * "LA"), and `None` for armor that has none.
   */
  datatype Armor = Armor(
    name: string,
    armorBonus: nat,
    hardinessRequirement: nat,
    armorType: string,
    armorClass: Option<string>)

  /** Why an armor record is refused: a non-shield type with no class tier. */
  datatype ArmorError = NeedsClassedArmor(armorType: string)

  /**
   * `clean`: refuses armor that is not a shield and has no class tier, and
   * passes everything else unchanged.
   */
  function Clean(a: Armor): (r: Result<Armor, ArmorError>)
    ensures r.Err? <==> a.armorType != "SH" && a.armorClass.None?
    ensures r.Err? ==> r.error == NeedsClassedArmor(a.armorType)
    ensures r.Ok? ==> r.value == a
  {
    if a.armorType != "SH" && a.armorClass.None? then Err(NeedsClassedArmor(a.armorType)) else Ok(a)
  }

  /** Shields and classed armor always pass; head and body armor pass only with a class tier. */
  lemma CleanByType(a: Armor)
    ensures a.armorType == "SH" ==> Clean(a).Ok?
    ensures a.armorClass.Some? ==> Clean(a).Ok?
    ensures a.armorType in ["HE", "BO"] ==> (Clean(a).Ok? <==> a.armorClass.Some?)
  {
  }
}
