/**
 * The rule evaluator behind `generate_suggestions`: one budget tip per
 * category with a positive budget that is over or near its limit, then a
 * tip about the most frequent recurring category, then a tip when spending
 * exceeds income. Every tip is then stored as an unread notification,
 * in order, with no deduplication.
 */
module AiSuggestions {
  import opened Tables
  import opened Text
  import Budget

  // ---------------------------------------------------------------------
  // The text-generation service.

  /** What the chat-completion call gives back: generated text, or the exception it raised. */
  datatype AiReply = Answer(text: string) | Failed(reason: string)

  /** The prefix `generate_openai_tip` puts in front of an exception's text. */
  const AiErrorPrefix: string := "\U{26A0}\U{FE0F} AI error: "

  /** The user message sent to the service for a summary. */
  function Prompt(summary: string): string {
    "Turn this into a helpful tip for the user:\n\n" + summary
  }

  /**
   * `generate_openai_tip`: the stripped reply, or the error-prefixed text of
   * the failure. It is total: it never raises. `ai` stands for the service.
   */
  function OpenAiTip(ai: string -> AiReply, summary: string): (tip: string)
    ensures ai(Prompt(summary)).Answer? ==>
              var text := ai(Prompt(summary)).text;
              StripStart(text) + |tip| <= |text| && tip == text[StripStart(text)..StripStart(text) + |tip|]
    ensures ai(Prompt(summary)).Failed? ==>
              |AiErrorPrefix| <= |tip| && tip[..|AiErrorPrefix|] == AiErrorPrefix
  {
    match ai(Prompt(summary))
    case Answer(text) => Strip(text)
    case Failed(reason) => AiErrorPrefix + reason
  }

  /** A failed call yields a string that starts with the error prefix and carries the reason. */
  lemma AiFailureIsTagged(ai: string -> AiReply, summary: string)
    requires ai(Prompt(summary)).Failed?
    ensures |AiErrorPrefix| <= |OpenAiTip(ai, summary)|
    ensures OpenAiTip(ai, summary)[..|AiErrorPrefix|] == AiErrorPrefix
    ensures OpenAiTip(ai, summary)[|AiErrorPrefix|..] == ai(Prompt(summary)).reason
  {
  }

  /** A successful call yields the reply itself, stripped of surrounding whitespace. */
  lemma AiAnswerIsStripped(ai: string -> AiReply, summary: string)
    requires ai(Prompt(summary)).Answer?
    ensures OpenAiTip(ai, summary) == Strip(ai(Prompt(summary)).text)
    ensures var tip := OpenAiTip(ai, summary);
            tip != [] ==> !IsSpace(tip[0]) && !IsSpace(tip[|tip| - 1])
  {
  }

  // ---------------------------------------------------------------------
  // Budget rules.

  datatype BudgetStatus = Exceeded(overage: int) | NearLimit | WithinBudget

  /**
   * The `if used > budget ... elif used > 0.8 * budget` chain, with the
   * 0.8 threshold written over integers as `5 * used > 4 * limit`.
   */
  function BudgetRule(used: int, limit: int): (s: BudgetStatus)
    ensures s.Exceeded? <==> used > limit
    ensures s.Exceeded? ==> s.overage == used - limit && s.overage > 0
    ensures s.NearLimit? <==> 4 * limit < 5 * used <= 5 * limit
    ensures s.WithinBudget? <==> 5 * used <= 4 * limit && used <= limit
  {
    if used > limit then Exceeded(used - limit)
    else if 5 * used > 4 * limit then NearLimit
    else WithinBudget
  }

  /** With a positive limit, the status is outside WithinBudget exactly when spend passes 80% of it. */
  lemma FlaggedIffOverEightyPercent(used: int, limit: int)
    requires limit > 0
    ensures !BudgetRule(used, limit).WithinBudget? <==> 5 * used > 4 * limit
  {
  }

  /** The summary handed to the service for an exceeded budget. */
  function ExceededSummary(name: string, overage: int): string {
    "user exceeded their " + name + " budget by $" + FormatCents(overage)
  }

  function NearLimitTip(name: string): string {
    "you're close to the limit on " + name + " \U{2014} careful spending"
  }

  /** The tip for one row of the budget-usage query, if any; a missing sum counts as 0. */
  function BudgetTip(row: Budget.BudgetRow, ai: string -> AiReply): (tip: Option<string>)
    ensures tip.Some? <==> row.used.GetOr(0) > row.budget || 5 * row.used.GetOr(0) > 4 * row.budget
    ensures row.used.GetOr(0) <= row.budget && tip.Some? ==> tip == Some(NearLimitTip(row.name))
  {
    match BudgetRule(row.used.GetOr(0), row.budget)
    case Exceeded(overage) => Some(OpenAiTip(ai, ExceededSummary(row.name, overage)))
    case NearLimit => Some(NearLimitTip(row.name))
    case WithinBudget => None
  }

  /** A category with a positive budget and no expense gets no tip. */
  lemma NoSpendNoTip(row: Budget.BudgetRow, ai: string -> AiReply)
    requires row.budget > 0 && row.used.GetOr(0) == 0
    ensures BudgetTip(row, ai) == None
  {
  }

  /** An exceeded category's tip is what the service makes of a summary naming the overage `used - budget`. */
  lemma ExceededTipStatesOverage(row: Budget.BudgetRow, ai: string -> AiReply)
    requires row.used.GetOr(0) > row.budget
    ensures BudgetTip(row, ai) == Some(OpenAiTip(ai, ExceededSummary(row.name, row.used.GetOr(0) - row.budget)))
  {
  }

  /** The rows kept by `budget_amount > 0`. */
  function Evaluated(rows: seq<Budget.BudgetRow>): (r: seq<Budget.BudgetRow>)
    ensures |r| <= |rows|
    ensures forall x :: x in r <==> x in rows && x.budget > 0
  {
    if rows == [] then []
    else
      var rest := Evaluated(rows[..|rows| - 1]);
      var x := rows[|rows| - 1];
      assert forall y :: y in rows <==> y in rows[..|rows| - 1] || y == x;
      if x.budget > 0 then rest + [x] else rest
  }

  /** The filter keeps each positive-budget row as often as it occurs, and no other row. */
  lemma {:induction false} EvaluatedMultiplicity(rows: seq<Budget.BudgetRow>)
    ensures forall x :: multiset(Evaluated(rows))[x] == (if x.budget > 0 then multiset(rows)[x] else 0)
  {
    if rows != [] {
      var init := rows[..|rows| - 1];
      var x := rows[|rows| - 1];
      EvaluatedMultiplicity(init);
      assert rows == init + [x];
      assert multiset(rows) == multiset(init) + multiset{x};
    }
  }

  /** The number of the user's categories that carry a positive budget. */
  function PositiveOwnedCount(cats: seq<Category>, user: int): nat {
    if cats == [] then 0
    else
      var c := cats[|cats| - 1];
      PositiveOwnedCount(cats[..|cats| - 1], user) + (if c.user == user && c.budget > 0 then 1 else 0)
  }

  lemma {:induction false} UsageCount(cats: seq<Category>, txns: seq<Transaction>, user: int)
    ensures |Evaluated(Budget.AllBudgets(cats, txns, user))| == PositiveOwnedCount(cats, user)
  {
    if cats != [] {
      var init := cats[..|cats| - 1];
      var c := cats[|cats| - 1];
      UsageCount(init, txns, user);
      var before := Budget.AllBudgets(init, txns, user);
      if c.user == user {
        var row := Budget.RowFor(c, txns, user);
        assert Budget.AllBudgets(cats, txns, user) == before + [row];
        assert (before + [row])[..|before + [row]| - 1] == before;
      }
    }
  }

  /**
   * The budget-usage query: the user's categories with a positive budget,
   * each with its expense sum; zero-budget categories are not evaluated.
   */
  function BudgetUsage(cats: seq<Category>, txns: seq<Transaction>, user: int): (rows: seq<Budget.BudgetRow>)
    ensures forall r :: r in rows ==> r.budget > 0
    ensures forall r :: r in rows ==> exists c :: c in cats && c.user == user && r == Budget.RowFor(c, txns, user)
    ensures forall c :: c in cats && c.user == user && c.budget > 0 ==> Budget.RowFor(c, txns, user) in rows
    ensures |rows| == PositiveOwnedCount(cats, user)
  {
    UsageCount(cats, txns, user);
    Evaluated(Budget.AllBudgets(cats, txns, user))
  }

  /** The budget tips for the rows, in row order, at most one per row. */
  function BudgetTips(rows: seq<Budget.BudgetRow>, ai: string -> AiReply): (tips: seq<string>)
    ensures |tips| <= |rows|
  {
    if rows == [] then []
    else BudgetTips(rows[..|rows| - 1], ai) + AsSeq(BudgetTip(rows[|rows| - 1], ai))
  }

  /** The tip of a single row, as a function value. */
  function TipOf(ai: string -> AiReply): Budget.BudgetRow -> Option<string> {
    row => BudgetTip(row, ai)
  }

  /** Each row's tip, present or not. */
  function RowTips(rows: seq<Budget.BudgetRow>, ai: string -> AiReply): (opts: seq<Option<string>>)
    ensures |opts| == |rows|
    ensures forall i :: 0 <= i < |rows| ==> opts[i] == BudgetTip(rows[i], ai)
  {
    MapSeq(rows, TipOf(ai))
  }

  /** The budget tips are the present row tips, in row order. */
  lemma {:induction false} BudgetTipsArePresent(rows: seq<Budget.BudgetRow>, ai: string -> AiReply)
    ensures BudgetTips(rows, ai) == Present(RowTips(rows, ai))
  {
    if rows != [] {
      var init := rows[..|rows| - 1];
      BudgetTipsArePresent(init, ai);
      PresentMapSnoc(rows, TipOf(ai));
    }
  }

  /** The tips of one more row are the earlier tips followed by that row's tip, if any. */
  lemma BudgetTipsStep(rows: seq<Budget.BudgetRow>, i: int, ai: string -> AiReply)
    requires 0 <= i < |rows|
    ensures BudgetTips(rows[..i + 1], ai) == BudgetTips(rows[..i], ai) + AsSeq(BudgetTip(rows[i], ai))
  {
    assert rows[..i + 1][..i] == rows[..i];
  }

  /** Every budget tip is the tip of some row. */
  lemma BudgetTipsFromRows(rows: seq<Budget.BudgetRow>, ai: string -> AiReply)
    ensures forall t :: t in BudgetTips(rows, ai) ==> exists i :: 0 <= i < |rows| && BudgetTip(rows[i], ai) == Some(t)
  {
    BudgetTipsArePresent(rows, ai);
  }

  /** Every row that has a tip contributes it to the budget tips. */
  lemma BudgetTipsCoverRows(rows: seq<Budget.BudgetRow>, ai: string -> AiReply)
    ensures forall i :: 0 <= i < |rows| && BudgetTip(rows[i], ai).Some? ==> BudgetTip(rows[i], ai).value in BudgetTips(rows, ai)
  {
    BudgetTipsArePresent(rows, ai);
  }

  /** Rows that are all within budget produce no tip at all. */
  lemma {:induction false} QuietBudgetsNoTips(rows: seq<Budget.BudgetRow>, ai: string -> AiReply)
    requires forall i :: 0 <= i < |rows| ==> 5 * rows[i].used.GetOr(0) <= 4 * rows[i].budget && rows[i].budget > 0
    ensures BudgetTips(rows, ai) == []
  {
    if rows != [] {
      QuietBudgetsNoTips(rows[..|rows| - 1], ai);
      FlaggedIffOverEightyPercent(rows[|rows| - 1].used.GetOr(0), rows[|rows| - 1].budget);
    }
  }

  // ---------------------------------------------------------------------
  // The recurring rule.

  /** A row the recurring query sees: a recurring transaction of the user whose category row exists. */
  predicate Candidate(t: Transaction, cats: seq<Category>, user: int) {
    t.user == user && t.recurring && t.category.Some? && HasCategory(cats, t.category.value)
  }

  /** `count(*)` of the user's recurring transactions in a category. */
  function RecurringCount(txns: seq<Transaction>, user: int, cat: int): nat {
    if txns == [] then 0
    else
      var t := txns[|txns| - 1];
      RecurringCount(txns[..|txns| - 1], user, cat)
        + (if t.user == user && t.recurring && t.category == Some(cat) then 1 else 0)
  }

  lemma {:induction false} RecurringCountPositive(txns: seq<Transaction>, user: int, cat: int, i: int)
    requires 0 <= i < |txns|
    requires txns[i].user == user && txns[i].recurring && txns[i].category == Some(cat)
    ensures RecurringCount(txns, user, cat) >= 1
  {
    if i < |txns| - 1 {
      RecurringCountPositive(txns[..|txns| - 1], user, cat, i);
    }
  }

  /**
   * The category of a candidate among `k` with the highest recurring count
   * over the whole table (`ORDER BY freq DESC LIMIT 1`); None when `k` holds
   * no candidate.
   */
  function MostFrequent(k: seq<Transaction>, txns: seq<Transaction>, cats: seq<Category>, user: int): (r: Option<int>)
    ensures r.None? <==> forall i :: 0 <= i < |k| ==> !Candidate(k[i], cats, user)
    ensures r.Some? ==> exists i :: 0 <= i < |k| && Candidate(k[i], cats, user) && k[i].category == Some(r.value)
    ensures r.Some? ==> forall i :: 0 <= i < |k| && Candidate(k[i], cats, user) ==>
              RecurringCount(txns, user, k[i].category.value) <= RecurringCount(txns, user, r.value)
  {
    if k == [] then None
    else
      var rest := MostFrequent(k[..|k| - 1], txns, cats, user);
      var t := k[|k| - 1];
      assert forall i :: 0 <= i < |k| - 1 ==> k[..|k| - 1][i] == k[i];
      if !Candidate(t, cats, user) then rest
      else if rest.None? || RecurringCount(txns, user, rest.value) < RecurringCount(txns, user, t.category.value)
      then Some(t.category.value)
      else rest
  }

  /** The row the recurring query returns. */
  datatype RecurringTop = RecurringTop(cat: int, name: string, count: nat)

  /**
   * The recurring query: None exactly when the user has no recurring
   * transaction in an existing category; otherwise a category of maximal
   * recurring count (at least 1, with no further minimum) and its name.
   */
  function TopRecurring(cats: seq<Category>, txns: seq<Transaction>, user: int): (r: Option<RecurringTop>)
    ensures r.None? <==> forall i :: 0 <= i < |txns| ==> !Candidate(txns[i], cats, user)
    ensures r.Some? ==>
              && HasCategory(cats, r.value.cat)
              && r.value.count == RecurringCount(txns, user, r.value.cat) >= 1
              && r.value.name == CategoryRow(cats, r.value.cat).value.name
    ensures r.Some? ==> forall i :: 0 <= i < |txns| && Candidate(txns[i], cats, user) ==>
              RecurringCount(txns, user, txns[i].category.value) <= r.value.count
  {
    match MostFrequent(txns, txns, cats, user)
    case None => None
    case Some(cat) =>
      var i :| 0 <= i < |txns| && Candidate(txns[i], cats, user) && txns[i].category == Some(cat);
      RecurringCountPositive(txns, user, cat, i);
      Some(RecurringTop(cat, CategoryRow(cats, cat).value.name, RecurringCount(txns, user, cat)))
  }

  function RecurringTip(cats: seq<Category>, txns: seq<Transaction>, user: int): (tip: Option<string>)
    ensures tip.Some? <==> exists i :: 0 <= i < |txns| && Candidate(txns[i], cats, user)
    ensures tip.Some? ==> tip.value == "you have frequent recurring txns in " + TopRecurring(cats, txns, user).value.name
  {
    match TopRecurring(cats, txns, user)
    case Some(top) => Some("you have frequent recurring txns in " + top.name)
    case None => None
  }

  // ---------------------------------------------------------------------
  // The income rule.

  const SpendingOverIncomeTip: string := "your spending is more than your income right now"

  /** `inc < exp` over the per-type totals, a missing type counting as 0. */
  function IncomeTip(txns: seq<Transaction>, user: int): (tip: Option<string>)
    ensures tip.Some? <==> Total(txns, user, Income) < Total(txns, user, Expense)
    ensures tip.Some? ==> tip.value == SpendingOverIncomeTip
  {
    if Total(txns, user, Income) < Total(txns, user, Expense) then Some(SpendingOverIncomeTip) else None
  }

  /** A user without transactions never gets the income tip. */
  lemma NoTransactionsNoIncomeTip(txns: seq<Transaction>, user: int)
    requires forall i :: 0 <= i < |txns| ==> txns[i].user != user
    ensures IncomeTip(txns, user) == None
  {
    TotalOfStranger(txns, user, Income);
    TotalOfStranger(txns, user, Expense);
  }

  /** A transaction of any other type (a transfer, say) never changes whether the income tip fires. */
  lemma OtherTypesIgnored(txns: seq<Transaction>, t: Transaction, user: int)
    requires t.kind.Other?
    ensures IncomeTip(txns + [t], user) == IncomeTip(txns, user)
  {
    TotalAppend(txns, t, user, Income);
    TotalAppend(txns, t, user, Expense);
  }

  // ---------------------------------------------------------------------
  // generate_suggestions.

  /** All tips of one run, in the order they are appended: budget, recurring, income. */
  function SuggestionTips(cats: seq<Category>, txns: seq<Transaction>, user: int, ai: string -> AiReply): (tips: seq<string>)
    ensures var budget := BudgetTips(BudgetUsage(cats, txns, user), ai);
            && |tips| == |budget| + |AsSeq(RecurringTip(cats, txns, user))| + |AsSeq(IncomeTip(txns, user))|
            && tips[..|budget|] == budget
    ensures |tips| <= |BudgetUsage(cats, txns, user)| + 2
    ensures Total(txns, user, Income) < Total(txns, user, Expense) ==>
              tips != [] && tips[|tips| - 1] == SpendingOverIncomeTip
  {
    var budget := BudgetTips(BudgetUsage(cats, txns, user), ai);
    AppendOptions(budget, RecurringTip(cats, txns, user), IncomeTip(txns, user));
    budget + AsSeq(RecurringTip(cats, txns, user)) + AsSeq(IncomeTip(txns, user))
  }

  /** The loop body of the budget check: the if/elif chain on one row. */
  method EvaluateRow(r: Budget.BudgetRow, ai: string -> AiReply) returns (tip: Option<string>)
    ensures tip == BudgetTip(r, ai)
  {
    var used := r.used.GetOr(0);
    if used > r.budget {
      tip := Some(OpenAiTip(ai, ExceededSummary(r.name, used - r.budget)));
    } else if 5 * used > 4 * r.budget {
      tip := Some(NearLimitTip(r.name));
    } else {
      tip := None;
    }
  }

  /** The budget loop of `generate_suggestions`: one pass over the usage rows, appending each row's tip. */
  method EvaluateBudgets(rows: seq<Budget.BudgetRow>, ai: string -> AiReply) returns (tips: seq<string>)
    ensures tips == BudgetTips(rows, ai)
  {
    tips := [];
    var i := 0;
    while i < |rows|
      invariant 0 <= i <= |rows|
      invariant tips == BudgetTips(rows[..i], ai)
    {
      var tip := EvaluateRow(rows[i], ai);
      BudgetTipsStep(rows, i, ai);
      tips := tips + AsSeq(tip);
      i := i + 1;
    }
    assert rows[..i] == rows;
  }

  /** The rule part of `generate_suggestions`: builds the `tips` list. */
  method CollectTips(cats: seq<Category>, txns: seq<Transaction>, user: int, ai: string -> AiReply)
    returns (tips: seq<string>)
    ensures tips == SuggestionTips(cats, txns, user, ai)
  {
    tips := EvaluateBudgets(BudgetUsage(cats, txns, user), ai);
    var top := TopRecurring(cats, txns, user);
    if top.Some? {
      tips := tips + ["you have frequent recurring txns in " + top.value.name];
    }
    var inc := Total(txns, user, Income);
    var exp := Total(txns, user, Expense);
    if inc < exp {
      tips := tips + [SpendingOverIncomeTip];
    }
  }

  /** The notification rows `insert_tip` writes for the tips, in order, all unread. */
  function TipRows(user: int, tips: seq<string>, today: Date): (rows: seq<Notification>)
    ensures |rows| == |tips|
    ensures forall i :: 0 <= i < |rows| ==>
              rows[i].content == tips[i] && rows[i].user == user && rows[i].created == today && !rows[i].isRead
  {
    if tips == [] then []
    else TipRows(user, tips[..|tips| - 1], today) + [Notification(user, tips[|tips| - 1], today, false)]
  }

  /** `insert_tip`: appends one unread notification, with no duplicate check. */
  method InsertTip(db: Store, user: int, content: string, today: Date)
    modifies db`notifications
    ensures db.notifications == old(db.notifications) + [Notification(user, content, today, false)]
  {
    db.notifications := db.notifications + [Notification(user, content, today, false)];
  }

  /**
   * `generate_suggestions`: computes the tips and inserts each exactly
   * once, in list order; nothing but the notification table changes, so a
   * second run on the same data inserts the same rows again.
   */
  method GenerateSuggestions(db: Store, user: int, ai: string -> AiReply, today: Date)
    returns (tips: seq<string>)
    modifies db`notifications
    ensures tips == SuggestionTips(db.categories, db.transactions, user, ai)
    ensures db.notifications == old(db.notifications) + TipRows(user, tips, today)
  {
    tips := CollectTips(db.categories, db.transactions, user, ai);
    InsertTips(db, user, tips, today);
  }

  /** The insertion loop of `generate_suggestions`: `insert_tip` for each tip, in list order. */
  method InsertTips(db: Store, user: int, tips: seq<string>, today: Date)
    modifies db`notifications
    ensures db.notifications == old(db.notifications) + TipRows(user, tips, today)
  {
    var i := 0;
    while i < |tips|
      invariant 0 <= i <= |tips|
      invariant db.notifications == old(db.notifications) + TipRows(user, tips[..i], today)
    {
      InsertTip(db, user, tips[i], today);
      assert tips[..i + 1][..i] == tips[..i];
      i := i + 1;
    }
    assert tips[..i] == tips;
  }
}
