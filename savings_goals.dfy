/**
 * The savings-goal ledger behind the savings dialog: one row per user with
 * an annual goal, a monthly commitment and the total saved so far.
 */
module SavingsGoals {
  import opened Tables
  import opened Text

  /** What pressing "Save Goal and Commitment" leads to. */
  datatype SaveOutcome =
    | Rejected                          // the warning box; nothing is written
    | Stored(goal: nat, commit: nat)    // the row is replaced
    | Raised                            // `int()` raises ValueError out of the handler

  /**
   * The handler as written: strip, test both inputs with `str.isdigit()`,
   * then convert with `int()`.
   */
  function SaveGoalAsWritten(goalText: string, commitText: string): (r: SaveOutcome)
    ensures r.Rejected? <==> !PyIsDigit(Strip(goalText)) || !PyIsDigit(Strip(commitText))
    ensures r.Raised? <==>
              && PyIsDigit(Strip(goalText)) && PyIsDigit(Strip(commitText))
              && !(IsDecimal(Strip(goalText)) && IsDecimal(Strip(commitText)))
    ensures r.Stored? ==>
              Some(r.goal) == DecimalValue(Strip(goalText)) && Some(r.commit) == DecimalValue(Strip(commitText))
  {
    var goal := Strip(goalText);
    var commit := Strip(commitText);
    if !PyIsDigit(goal) || !PyIsDigit(commit) then Rejected
    else
      match (DecimalValue(goal), DecimalValue(commit))
      case (Some(g), Some(c)) => Stored(g, c)
      case _ => Raised
  }

  /** As written, a superscript two passes the digit test and then `int()` raises. */
  lemma AsWrittenRaisesOnSuperscript()
    ensures SaveGoalAsWritten("\U{00B2}", "300") == Raised
  {
    StripDigitLike("\U{00B2}");
    StripDigitLike("300");
    assert !IsDecimal("\U{00B2}");
  }

  /** Text made of `isdigit()` characters has no whitespace to strip. */
  lemma StripDigitLike(s: string)
    requires PyIsDigit(s)
    ensures Strip(s) == s
  {
    assert !IsSpace(s[0]) && !IsSpace(s[|s| - 1]);
    assert LeadingSpaces(s) == 0;
    assert TrailingSpaces(s) == 0;
  }

  /**
   * The handler with the digit test it evidently intends (decimal digits
   * only): it never raises, and accepts exactly the inputs that convert.
   */
  function SaveGoalOutcome(goalText: string, commitText: string): (r: SaveOutcome)
    ensures !r.Raised?
    ensures r.Stored? <==> IsDecimal(Strip(goalText)) && IsDecimal(Strip(commitText))
    ensures r.Stored? ==> Some(r.goal) == DecimalValue(Strip(goalText)) && Some(r.commit) == DecimalValue(Strip(commitText))
  {
    var goal := Strip(goalText);
    var commit := Strip(commitText);
    if !IsDecimal(goal) || !IsDecimal(commit) then Rejected
    else Stored(DigitsValue(goal), DigitsValue(commit))
  }

  /** Where the written test already admits only convertible text, the two handlers agree. */
  lemma CorrectedAgreesOnDecimalText(goalText: string, commitText: string)
    requires IsDecimal(Strip(goalText)) && IsDecimal(Strip(commitText))
    ensures SaveGoalAsWritten(goalText, commitText) == SaveGoalOutcome(goalText, commitText)
  {
  }

  /** Typing in the numbers as rendered, with any surrounding blanks, stores exactly those numbers. */
  lemma SaveGoalRoundTrip(goal: nat, commit: nat)
    ensures SaveGoalOutcome(" " + NatToString(goal) + "\n", NatToString(commit)) == Stored(goal, commit)
  {
    var g := NatToString(goal);
    var c := NatToString(commit);
    StripDigits(g, " ", "\n");
    StripDigits(c, "", "");
    assert "" + c + "" == c;
    NatToStringRoundTrip(goal);
    NatToStringRoundTrip(commit);
    assert Strip(" " + g + "\n") == g;
    assert Strip(c) == c;
  }

  lemma StripDigits(digits: string, before: string, after: string)
    requires IsDecimal(digits)
    requires forall k :: 0 <= k < |before| ==> IsSpace(before[k])
    requires forall k :: 0 <= k < |after| ==> IsSpace(after[k])
    ensures Strip(before + digits + after) == digits
  {
    var s := before + digits + after;
    var r := Strip(s);
    var i := StripStart(s);
    var e := |before| + |digits|;
    assert forall k :: 0 <= k < |before| ==> s[k] == before[k];
    assert forall k :: e <= k < |s| ==> s[k] == after[k - e];
    assert forall k :: |before| <= k < e ==> s[k] == digits[k - |before|];
    assert !IsSpace(s[|before|]) && !IsSpace(s[e - 1]);
    assert i == |before|;
    assert i + |r| == e;
  }

  /** `save_goal`: on valid input the user's row is replaced, which resets the total saved to 0. */
  method SaveGoal(db: Store, user: int, goalText: string, commitText: string) returns (saved: bool)
    modifies db`savings
    ensures saved <==> SaveGoalOutcome(goalText, commitText).Stored?
    ensures !saved ==> db.savings == old(db.savings)
    ensures saved ==> db.savings == old(db.savings)[user := SavingsGoal(
                                      SaveGoalOutcome(goalText, commitText).goal,
                                      SaveGoalOutcome(goalText, commitText).commit, 0)]
  {
    var goal := Strip(goalText);
    var commit := Strip(commitText);
    if !IsDecimal(goal) || !IsDecimal(commit) {
      return false;
    }
    var g := DecimalValue(goal).value;
    var c := DecimalValue(commit).value;
    db.savings := db.savings[user := SavingsGoal(g, c, 0)];
    saved := true;
  }

  /** `transfer_commitment`: adds the monthly commitment to the total saved; without a row, nothing changes. */
  method TransferCommitment(db: Store, user: int) returns (moved: bool)
    modifies db`savings
    ensures moved <==> user in old(db.savings)
    ensures !moved ==> db.savings == old(db.savings)
    ensures moved ==> db.savings == old(db.savings)[user := old(db.savings)[user].(
                                      totalSaved := old(db.savings)[user].totalSaved + old(db.savings)[user].monthlyCommit)]
  {
    if user !in db.savings {
      return false;
    }
    var row := db.savings[user];
    var newTotal := row.totalSaved + row.monthlyCommit;
    db.savings := db.savings[user := row.(totalSaved := newTotal)];
    moved := true;
  }

  /** The progress bar's percentage: 0 for a zero goal, otherwise saved/goal*100 truncated. */
  function Progress(goal: nat, saved: nat): (p: nat)
    ensures goal == 0 ==> p == 0
    ensures goal > 0 ==> p * goal <= saved * 100 < (p + 1) * goal
  {
    if goal > 0 then saved * 100 / goal else 0
  }

  /** Saving no more than the goal keeps the bar within 100%. */
  lemma ProgressAtMostFull(goal: nat, saved: nat)
    requires saved <= goal
    ensures Progress(goal, saved) <= 100
  {
    if goal > 0 {
      var p := Progress(goal, saved);
      assert p * goal <= 100 * goal;
    }
  }

  /** Transferring the monthly commitment never lowers the progress shown. */
  lemma TransferNeverLowersProgress(goal: nat, saved: nat, commit: nat)
    ensures Progress(goal, saved) <= Progress(goal, saved + commit)
  {
    if goal > 0 {
      var p := Progress(goal, saved);
      var q := Progress(goal, saved + commit);
      assert p * goal <= saved * 100 <= (saved + commit) * 100 < (q + 1) * goal;
      ScaleMonotone(q + 1, p, goal);
    }
  }

  /** Scaling by a natural number keeps the order. */
  lemma ScaleMonotone(a: nat, b: nat, c: nat)
    ensures a <= b ==> a * c <= b * c
  {
    if a <= b {
      assert b * c == a * c + (b - a) * c;
    }
  }

  /** `load_progress`: the current user's percentage, or nothing shown without a row. */
  function LoadProgress(savings: map<int, SavingsGoal>, user: int): (p: Option<nat>)
    ensures p.None? <==> user !in savings
    ensures p.Some? ==> p.value == Progress(savings[user].annualGoal, savings[user].totalSaved)
  {
    if user in savings then Some(Progress(savings[user].annualGoal, savings[user].totalSaved)) else None
  }
}
