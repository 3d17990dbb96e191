/** Worked examples of the score table, each checked against the model. */
module Scenarios {
  import opened Options
  import opened ParseInt
  import opened Totals
  import opened TotalClasses
  import opened ScoreApp

  /** Drafts "7", "" and "abc" make the round [7, 0, 0]. */
  lemma DraftRowExample()
    ensures ParseRow(["7", "", "abc"]) == [7, 0, 0]
  {
  }

  /** Text after the digits is ignored and a sign is read: "12abc" is 12, " -3" is -3. */
  lemma TrailingTextAndSignExample()
    ensures ParseScore("12abc") == 12 && ParseScore(" -3") == -3
  {
    ParseShow("", 12, "abc");
    assert "" + Show(12) + "abc" == "12abc";
    ParseShow(" ", -3, "");
    assert " " + Show(-3) + "" == " -3";
  }

  /** Drafts that hold a digit but no numeral count as 0: "abc5", "-" and "+-5". */
  lemma NaNDraftsExample()
    ensures ParseScore("abc5") == 0 && ParseScore("-") == 0 && ParseScore("+-5") == 0
  {
    assert DigitPrefix(SignStripped(TrimStart("abc5"))) == [];
    assert DigitPrefix(SignStripped(TrimStart("-"))) == [];
    assert DigitPrefix(SignStripped(TrimStart("+-5"))) == [];
  }

  /** A '+' sign and leading zeros are read: "+5" gives 5 and "007" gives 7. */
  lemma SignAndZerosExample()
    ensures ParseScore("+5") == 5 && ParseScore("007") == 7
  {
    ParseNumeral("+5", "", "+", "5", "");
    assert "007"[..2] == "00" && "00"[..1] == "0" && "0"[..0] == "";
    assert DigitsValue("007") == 7;
    ParseNumeral("007", "", "", "007", "");
  }

  /** Four players, rounds [10, 0, 5, 3] and [2, 2, 2, 2]: totals [12, 2, 7, 5], the
      first 'high', the second 'low'. */
  lemma SoloExample()
    ensures TotalsOf([[10, 0, 5, 3], [2, 2, 2, 2]], 4) == [12, 2, 7, 5]
    ensures GetTotalClasses([12, 2, 7, 5]) == [High, Low, Unmarked, Unmarked]
  {
    var totals := [12, 2, 7, 5];
    assert Max(totals) == 12 && Min(totals) == 2;
    assert totals[1] in totals && totals[1] != totals[0];
  }

  /** Two teams, one round [5, 5]: totals [5, 5], both 'equal'. */
  lemma TeamExample()
    ensures TotalsOf([[5, 5]], 2) == [5, 5]
    ensures GetTotalClasses([5, 5]) == [Equal, Equal]
  {
  }

  /** The start of a team game driven through the handlers: choose the mode, name
      the teams, commit the names. */
  method StartTeamSession() returns (app: App)
    ensures fresh(app) && app.Valid() && app.CurrentPhase() == ScoreTracking
    ensures app.playerNames == ["X", "Y"] && app.scores == [] && app.newScores == ["", ""]
    ensures app.storage == Some(Snapshot("double", ["X", "Y"], ["X", "Y"], []))
  {
    app := new App.Mount(None);
    app.HandleModeSelect("double");
    app.HandleNameChange(0, "X");
    app.HandleNameChange(1, "Y");
    assert app.nameInputs == ["X", "Y"];
    app.HandleContinue();
  }

  /** The rest of that game: one round with a blank draft, committed, then the
      totals and their labels. */
  method TeamSession() returns (app: App, totals: seq<int>, labels: seq<Label>)
    ensures app.Valid() && app.CurrentPhase() == ScoreTracking
    ensures app.playerNames == ["X", "Y"] && app.scores == [[5, 0]]
    ensures totals == [5, 0] && labels == [High, Low]
  {
    app := StartTeamSession();
    app.HandleScoreChange(0, "5");
    assert app.newScores == ["5", ""];
    TeamRound();
    app.HandleAddScores();
    assert app.scores == [] + [ParseRow(["5", ""])];
    totals := CalculateTotals(|app.playerNames|, app.scores);
    labels := GetTotalClasses(totals);
  }

  lemma TeamRound()
    ensures ParseRow(["5", ""]) == [5, 0]
    ensures TotalsOf([[5, 0]], 2) == [5, 0]
    ensures GetTotalClasses([5, 0]) == [High, Low]
  {
    ParseShow("", 5, "");
    assert "" + Show(5) + "" == "5";
    NoDigitsIsZero("");
  }
}
