/**
 * Game modes: the three canonical names, the one-hot indicators the API
 * builds from a free-form mode string, and the inverse the batch scripts use
 * to rebuild the mode name from those indicator columns.
 */
module Modes {
  import opened Text
  import opened Frames

  datatype Mode = Duel | Doubles | Standard

  function Name(m: Mode): string {
    match m
    case Duel => "Duel"
    case Doubles => "Doubles"
    case Standard => "Standard"
  }

  /** The mode list of the synthetic generator, in its order. */
  const ModeNames: seq<string> := ["Duel", "Doubles", "Standard"]

  /** Lower-case forms the API recognises. */
  const LowerModeNames: set<string> := {"duel", "doubles", "standard"}

  /** Indicator column names, as produced by `get_dummies(prefix='mode')`. */
  function Column(m: Mode): string {
    "mode_" + Name(m)
  }

  lemma NamesOfModes()
    ensures forall m: Mode :: Name(m) in ModeNames
    ensures forall s :: s in ModeNames ==> exists m: Mode :: Name(m) == s
    ensures Lower("Duel") == "duel" && Lower("Doubles") == "doubles" && Lower("Standard") == "standard"
    ensures Capitalize("duel") == "Duel" && Capitalize("doubles") == "Doubles" && Capitalize("standard") == "Standard"
  {
    assert Name(Duel) == ModeNames[0];
    assert Name(Doubles) == ModeNames[1];
    assert Name(Standard) == ModeNames[2];
    ModeNamesLower();
    ModeNamesCapitalize();
  }

  lemma ModeNamesLower()
    ensures Lower("Duel") == "duel" && Lower("Doubles") == "doubles" && Lower("Standard") == "standard"
  {
    assert Lower("Duel") == "duel";
    assert Lower("Doubles") == "doubles";
    assert Lower("Standard") == "standard";
  }

  lemma ModeNamesCapitalize()
    ensures Capitalize("duel") == "Duel" && Capitalize("doubles") == "Doubles" && Capitalize("standard") == "Standard"
  {
    CapitalizeWord("duel");
    CapitalizeWord("doubles");
    CapitalizeWord("standard");
  }

  /** The three indicator values `mode_Duel`, `mode_Doubles`, `mode_Standard`. */
  datatype OneHot = OneHot(duel: int, doubles: int, standard: int)

  function Bit(h: OneHot, m: Mode): int {
    match m
    case Duel => h.duel
    case Doubles => h.doubles
    case Standard => h.standard
  }

  /**
   * The API's one-hot encoding of a mode string, matched case-insensitively;
   * an unrecognised mode gives three zeros.
   */
  function Indicators(gameMode: string): (h: OneHot)
    ensures forall m: Mode :: Bit(h, m) == 0 || Bit(h, m) == 1
    ensures forall m: Mode :: Bit(h, m) == 1 <==> Lower(gameMode) == Lower(Name(m))
    ensures h.duel + h.doubles + h.standard <= 1
    ensures h.duel + h.doubles + h.standard == 1 <==> Lower(gameMode) in LowerModeNames
  {
    NamesOfModes();
    var g := Lower(gameMode);
    OneHot(if g == "duel" then 1 else 0, if g == "doubles" then 1 else 0, if g == "standard" then 1 else 0)
  }

  /**
   * `reconstruct_game_mode`: the first indicator equal to 1, in the order
   * Duel, Doubles, Standard, names the mode; none gives "Unknown". The
   * arguments are the row's cells, `Int(0)` standing for an absent column.
   */
  function Reconstruct(duel: Value, doubles: Value, standard: Value): (r: string)
    ensures r in ModeNames || r == "Unknown"
    ensures r == "Unknown" <==> duel != Int(1) && doubles != Int(1) && standard != Int(1)
    ensures r == "Duel" <==> duel == Int(1)
    ensures r == "Doubles" <==> duel != Int(1) && doubles == Int(1)
    ensures r == "Standard" <==> duel != Int(1) && doubles != Int(1) && standard == Int(1)
  {
    if duel == Int(1) then "Duel"
    else if doubles == Int(1) then "Doubles"
    else if standard == Int(1) then "Standard"
    else "Unknown"
  }

  /** When several indicators are set, the earlier mode wins. */
  lemma ReconstructPriority(h: OneHot)
    ensures h.duel == 1 ==> Reconstruct(Int(h.duel), Int(h.doubles), Int(h.standard)) == "Duel"
    ensures h.duel != 1 && h.doubles == 1 ==> Reconstruct(Int(h.duel), Int(h.doubles), Int(h.standard)) == "Doubles"
    ensures h.duel != 1 && h.doubles != 1 && h.standard == 1 ==> Reconstruct(Int(h.duel), Int(h.doubles), Int(h.standard)) == "Standard"
  {
  }

  /**
   * Round trip: decoding the API's indicators of any casing of a canonical
   * mode gives the capitalised mode; an unrecognised mode decodes to "Unknown".
   */
  lemma ReconstructIndicators(gameMode: string)
    ensures Lower(gameMode) in LowerModeNames ==>
      Reconstruct(Int(Indicators(gameMode).duel), Int(Indicators(gameMode).doubles), Int(Indicators(gameMode).standard)) == Capitalize(gameMode)
    ensures Lower(gameMode) !in LowerModeNames ==>
      Reconstruct(Int(Indicators(gameMode).duel), Int(Indicators(gameMode).doubles), Int(Indicators(gameMode).standard)) == "Unknown"
  {
    NamesOfModes();
    CapitalizeOfLower(gameMode);
    var h := Indicators(gameMode);
    if Lower(gameMode) == "duel" {
      assert Bit(h, Duel) == 1;
    } else if Lower(gameMode) == "doubles" {
      assert Bit(h, Doubles) == 1;
    } else if Lower(gameMode) == "standard" {
      assert Bit(h, Standard) == 1;
    }
  }

  /** In particular every canonical mode survives the round trip unchanged. */
  lemma ReconstructCanonical(m: Mode)
    ensures Reconstruct(Int(Indicators(Name(m)).duel), Int(Indicators(Name(m)).doubles), Int(Indicators(Name(m)).standard)) == Name(m)
  {
    NamesOfModes();
    ReconstructIndicators(Name(m));
  }
}
