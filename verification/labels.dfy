/**
 * Label normalisation of the prediction API: team colours and match
 * outcomes are looked up, by their lower-case form, in a table of English
 * and Spanish synonyms; anything else is passed through capitalised.
 */
module Labels {
  import opened Text

  const BlueSynonyms: set<string> := {"blue", "azul", "b"}
  const OrangeSynonyms: set<string> := {"orange", "naranja", "o"}
  const DrawSynonyms: set<string> := {"draw", "empate", "tie"}

  /** The colour table of `normalize_team_color`. */
  const ColorTable: map<string, string> := map[
    "blue" := "Blue", "azul" := "Blue", "b" := "Blue",
    "orange" := "Orange", "naranja" := "Orange", "o" := "Orange"
  ]

  /** The outcome table of `normalize_winner`. */
  const WinnerTable: map<string, string> := map[
    "blue" := "Blue", "azul" := "Blue", "b" := "Blue",
    "orange" := "Orange", "naranja" := "Orange", "o" := "Orange",
    "draw" := "Draw", "empate" := "Draw", "tie" := "Draw"
  ]

  lemma ColorTableKeys()
    ensures ColorTable.Keys == BlueSynonyms + OrangeSynonyms
    ensures forall k :: k in BlueSynonyms ==> ColorTable[k] == "Blue"
    ensures forall k :: k in OrangeSynonyms ==> ColorTable[k] == "Orange"
  {
  }

  lemma WinnerTableKeys()
    ensures WinnerTable.Keys == BlueSynonyms + OrangeSynonyms + DrawSynonyms
    ensures forall k :: k in ColorTable ==> WinnerTable[k] == ColorTable[k]
    ensures forall k :: k in DrawSynonyms ==> WinnerTable[k] == "Draw"
  {
  }

  /** The canonical labels are their own synonyms' capitalisation. */
  lemma CanonicalLowerForms()
    ensures Lower("Blue") == "blue" && Lower("Orange") == "orange" && Lower("Draw") == "draw"
  {
    assert Lower("Blue") == "blue";
    assert Lower("Orange") == "orange";
    assert Lower("Draw") == "draw";
  }

  /** `normalize_team_color` */
  function NormalizeTeamColor(color: string): (r: string)
    ensures r == "Blue" <==> Lower(color) in BlueSynonyms
    ensures r == "Orange" <==> Lower(color) in OrangeSynonyms
    ensures Lower(color) !in BlueSynonyms + OrangeSynonyms ==> r == Capitalize(color)
  {
    ColorTableKeys();
    LowerOfCapitalize(color);
    CanonicalLowerForms();
    if Lower(color) in ColorTable then ColorTable[Lower(color)] else Capitalize(color)
  }

  /** `normalize_winner` */
  function NormalizeWinner(winner: string): (r: string)
    ensures r == "Blue" <==> Lower(winner) in BlueSynonyms
    ensures r == "Orange" <==> Lower(winner) in OrangeSynonyms
    ensures r == "Draw" <==> Lower(winner) in DrawSynonyms
    ensures Lower(winner) !in BlueSynonyms + OrangeSynonyms + DrawSynonyms ==> r == Capitalize(winner)
  {
    WinnerTableKeys();
    LowerOfCapitalize(winner);
    CanonicalLowerForms();
    if Lower(winner) in WinnerTable then WinnerTable[Lower(winner)] else Capitalize(winner)
  }

  /** Both normalisations see only the lower-cased input. */
  lemma NormalizeDependsOnlyOnLower(a: string, b: string)
    requires Lower(a) == Lower(b)
    ensures NormalizeTeamColor(a) == NormalizeTeamColor(b)
    ensures NormalizeWinner(a) == NormalizeWinner(b)
  {
    CapitalizeRespectsLower(a, b);
  }

  lemma NormalizeTeamColorIdempotent(color: string)
    ensures NormalizeTeamColor(NormalizeTeamColor(color)) == NormalizeTeamColor(color)
  {
    var c := Lower(color);
    if c in BlueSynonyms || c in OrangeSynonyms {
      CanonicalLowerForms();
    } else {
      LowerOfCapitalize(color);
      CapitalizeIdempotent(color);
    }
  }

  lemma NormalizeWinnerIdempotent(winner: string)
    ensures NormalizeWinner(NormalizeWinner(winner)) == NormalizeWinner(winner)
  {
    var w := Lower(winner);
    if w in BlueSynonyms || w in OrangeSynonyms || w in DrawSynonyms {
      CanonicalLowerForms();
    } else {
      LowerOfCapitalize(winner);
      CapitalizeIdempotent(winner);
    }
  }

  /**
   * The outcome normalisation extends the colour normalisation by the draw
   * synonyms and agrees with it everywhere else.
   */
  lemma WinnerExtendsTeamColor(s: string)
    ensures Lower(s) !in DrawSynonyms ==> NormalizeWinner(s) == NormalizeTeamColor(s)
    ensures Lower(s) in DrawSynonyms ==> NormalizeWinner(s) == "Draw" && NormalizeTeamColor(s) == Capitalize(s)
  {
  }

  /** Unknown labels are capitalised, not title-cased and not rejected. */
  lemma UnknownColorsAreCapitalized()
    ensures NormalizeTeamColor("purple") == "Purple"
    ensures NormalizeTeamColor("dark BLUE") == "Dark blue"
    ensures NormalizeTeamColor("AZUL") == "Blue"
    ensures NormalizeWinner("Empate") == "Draw"
  {
    assert Lower("purple") == "purple";
    assert Lower("dark BLUE") == "dark blue";
    assert Lower("AZUL") == "azul";
    assert Lower("Empate") == "empate";
    CapitalizeWord("purple");
    assert Capitalize("dark BLUE") == "Dark blue";
  }
}
