/** The constant choice tables of `l8nite/typedefs.py`. */
module Typedefs {
  import opened Numerals

  /** The die types a weapon may carry, smallest die first. */
  const DieTypes: seq<string> := ["D4", "D6", "D8", "D10", "D12", "D20"]

  /** The races a `CharacterRace` may be named after, as (code, label) pairs. */
  const RaceChoices: seq<(string, string)> := [
    ("HU", "Human"),
    ("OR", "Orc"),
    ("AK", "Akuak"),
    ("AI", "Artificial Intelligence"),
    ("AS", "Asheni"),
    ("BA", "Bahah"),
    ("DW", "Dwarf"),
    ("GO", "Goblin"),
    ("TR", "Troll"),
    ("IX", "Ixia"),
    ("QI", "Qitop")
  ]

  predicate Distinct<T(==)>(s: seq<T>) {
    forall i, j :: 0 <= i < j < |s| ==> s[i] != s[j]
  }

  /** The list comprehension `[(t, t) for t in ts]`. */
  function ChoicePairs(ts: seq<string>): (r: seq<(string, string)>)
    ensures |r| == |ts|
    ensures forall i :: 0 <= i < |ts| ==> r[i] == (ts[i], ts[i])
  {
    if ts == [] then [] else [(ts[0], ts[0])] + ChoicePairs(ts[1..])
  }

  /** The choices offered for a weapon's die type: each die type paired with itself. */
  function DieTypeChoices(): (r: seq<(string, string)>)
    ensures |r| == 6
    ensures forall i :: 0 <= i < 6 ==> r[i].0 == r[i].1 == DieTypes[i]
  {
    ChoicePairs(DieTypes)
  }

  /** The codes stored in a race's `name`: eleven distinct two-letter codes. */
  function RaceCodes(): (codes: seq<string>)
    ensures |codes| == 11 && Distinct(codes)
    ensures forall i :: 0 <= i < |codes| ==> |codes[i]| == 2
  {
    seq(|RaceChoices|, i requires 0 <= i < |RaceChoices| => RaceChoices[i].0)
  }

  /** A die type is the letter D followed by a canonical numeral for a positive number. */
  predicate DieNumeral(t: string) {
    |t| >= 2 && t[0] == 'D' && Canonical(t[1..]) && DigitsValue(t[1..]) > 0
  }

  /** Six distinct die types, each written as D and a positive decimal numeral. */
  lemma DieTypesWellFormed()
    ensures |DieTypes| == 6 && Distinct(DieTypes)
    ensures forall i :: 0 <= i < |DieTypes| ==> DieNumeral(DieTypes[i])
  {
    forall i | 0 <= i < |DieTypes| ensures DieNumeral(DieTypes[i]) {
      var t := DieTypes[i];
      LeadingDigitPositive(t[1..]);
    }
  }
}
