/**
 * Budget accessors: setting and reading a category's budget, and the
 * per-category expense spend that budgets are compared against.
 */
module Budget {
  import opened Tables

  /** The row `set_budget(user, cat, _)` and `get_budget(user, cat)` address. */
  predicate Addresses(c: Category, user: int, cat: int) {
    c.user == user && c.id == cat
  }

  /** The categories table after `UPDATE categories SET budget_amount = amount WHERE user_id = user AND category_id = cat`. */
  function WithBudget(cats: seq<Category>, user: int, cat: int, amount: int): (r: seq<Category>)
    ensures |r| == |cats|
    ensures forall i :: 0 <= i < |r| ==>
              if Addresses(cats[i], user, cat) then r[i] == cats[i].(budget := amount) else r[i] == cats[i]
  {
    seq(|cats|, i requires 0 <= i < |cats| =>
      if Addresses(cats[i], user, cat) then cats[i].(budget := amount) else cats[i])
  }

  /** `set_budget`: updates the addressed row in place. */
  method SetBudget(db: Store, user: int, cat: int, amount: int)
    modifies db`categories
    ensures db.categories == WithBudget(old(db.categories), user, cat, amount)
    ensures |db.categories| == |old(db.categories)|
    ensures forall i :: 0 <= i < |db.categories| ==>
              if Addresses(old(db.categories)[i], user, cat)
              then db.categories[i] == old(db.categories)[i].(budget := amount)
              else db.categories[i] == old(db.categories)[i]
  {
    db.categories := WithBudget(db.categories, user, cat, amount);
  }

  /** No row before index `i` is addressed. */
  predicate FirstAddressed(cats: seq<Category>, user: int, cat: int, i: int)
    requires 0 <= i <= |cats|
  {
    forall j :: 0 <= j < i ==> !Addresses(cats[j], user, cat)
  }

  /** `get_budget`: the budget of the first addressed row, 0 when there is none. */
  function GetBudget(cats: seq<Category>, user: int, cat: int): (b: int)
    ensures (forall i :: 0 <= i < |cats| ==> !Addresses(cats[i], user, cat)) ==> b == 0
    ensures forall i :: 0 <= i < |cats| && Addresses(cats[i], user, cat) && FirstAddressed(cats, user, cat, i) ==>
              b == cats[i].budget
  {
    if cats == [] then 0
    else if Addresses(cats[0], user, cat) then cats[0].budget
    else GetBudget(cats[1..], user, cat)
  }

  /** With no row for the user and category, the budget reads as 0. */
  lemma {:induction false} GetBudgetMissing(cats: seq<Category>, user: int, cat: int)
    requires forall i :: 0 <= i < |cats| ==> !Addresses(cats[i], user, cat)
    ensures GetBudget(cats, user, cat) == 0
  {
    if cats != [] {
      GetBudgetMissing(cats[1..], user, cat);
    }
  }

  /** After `set_budget(user, cat, amount)`, `get_budget(user, cat)` reads `amount` whenever the row exists. */
  lemma {:induction false} GetAfterSet(cats: seq<Category>, user: int, cat: int, amount: int)
    requires exists i :: 0 <= i < |cats| && Addresses(cats[i], user, cat)
    ensures GetBudget(WithBudget(cats, user, cat, amount), user, cat) == amount
  {
    var w := WithBudget(cats, user, cat, amount);
    if !Addresses(cats[0], user, cat) {
      var i :| 0 <= i < |cats| && Addresses(cats[i], user, cat);
      assert Addresses(cats[1..][i - 1], user, cat);
      GetAfterSet(cats[1..], user, cat, amount);
      assert w[1..] == WithBudget(cats[1..], user, cat, amount);
    }
  }

  /** `set_budget` on one (user, category) leaves every other budget reading unchanged. */
  lemma {:induction false} GetAfterSetElsewhere(cats: seq<Category>, user: int, cat: int, amount: int, user': int, cat': int)
    requires user != user' || cat != cat'
    ensures GetBudget(WithBudget(cats, user, cat, amount), user', cat') == GetBudget(cats, user', cat')
  {
    if cats != [] {
      var w := WithBudget(cats, user, cat, amount);
      assert w[1..] == WithBudget(cats[1..], user, cat, amount);
      GetAfterSetElsewhere(cats[1..], user, cat, amount, user', cat');
    }
  }

  /** `set_budget` with no addressed row changes nothing. */
  lemma SetBudgetWithoutRow(cats: seq<Category>, user: int, cat: int, amount: int)
    requires forall i :: 0 <= i < |cats| ==> !Addresses(cats[i], user, cat)
    ensures WithBudget(cats, user, cat, amount) == cats
  {
  }

  /** `get_spent`: the expense total of the user in the category, 0 when there is none. */
  function Spent(txns: seq<Transaction>, user: int, cat: int): (r: int)
    ensures (forall i :: 0 <= i < |txns| ==> !IsExpenseIn(txns[i], user, cat)) ==> r == 0
    ensures ExpenseSum(txns, user, cat).Some? ==> r == ExpenseSum(txns, user, cat).value
  {
    ExpenseSum(txns, user, cat).GetOr(0)
  }

  /**
   * Appending a transaction raises the spend by its amount exactly when it
   * is an expense of that user in that category; income, other types, other
   * users and other categories leave the spend as it was.
   */
  lemma SpentAppend(txns: seq<Transaction>, t: Transaction, user: int, cat: int)
    ensures Spent(txns + [t], user, cat) == Spent(txns, user, cat) + (if IsExpenseIn(t, user, cat) then t.amount else 0)
  {
    assert (txns + [t])[..|txns|] == txns;
  }

  /** A category nobody spent in has spend 0. */
  lemma SpentNothing(txns: seq<Transaction>, user: int, cat: int)
    requires forall i :: 0 <= i < |txns| ==> !IsExpenseIn(txns[i], user, cat)
    ensures Spent(txns, user, cat) == 0
  {
  }

  /** How many rows of `categories` belong to the user. */
  function OwnedCount(cats: seq<Category>, user: int): nat {
    if cats == [] then 0
    else OwnedCount(cats[..|cats| - 1], user) + (if cats[|cats| - 1].user == user then 1 else 0)
  }

  /** A row of `get_all_budgets`; `used` is NULL when the category has no expense. */
  datatype BudgetRow = BudgetRow(id: int, name: string, budget: int, used: Option<int>)

  function RowFor(c: Category, txns: seq<Transaction>, user: int): BudgetRow {
    BudgetRow(c.id, c.name, c.budget, ExpenseSum(txns, user, c.id))
  }

  /**
   * `get_all_budgets`: one row per category of the user, in table order,
   * zero-budget ones included, each carrying that category's expense sum.
   */
  function AllBudgets(cats: seq<Category>, txns: seq<Transaction>, user: int): (rows: seq<BudgetRow>)
    ensures |rows| == OwnedCount(cats, user) <= |cats|
    ensures forall c :: c in cats && c.user == user ==> RowFor(c, txns, user) in rows
    ensures forall r :: r in rows ==> exists c :: c in cats && c.user == user && r == RowFor(c, txns, user)
  {
    if cats == [] then []
    else
      var rest := AllBudgets(cats[..|cats| - 1], txns, user);
      var c := cats[|cats| - 1];
      assert forall d :: d in cats ==> d in cats[..|cats| - 1] || d == c;
      if c.user == user then rest + [RowFor(c, txns, user)] else rest
  }
}
