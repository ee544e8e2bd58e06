/**
 * The application's relational store, held in memory.
 *
 * Each SQLite table the engine reads or writes becomes a field of `Store`:
 * a sequence of rows in insertion order where the table has no key the
 * engine relies on, a map where the engine looks rows up by user.
 * Money is held in integer cents; dates are calendar dates passed in by
 * the caller instead of being read from the clock.
 */
module Tables {

  datatype Option<T> = None | Some(value: T) {
    /** The value, or `default` when there is none (Python's `x or 0`). */
    function GetOr(default: T): T {
      match this
      case Some(v) => v
      case None => default
    }
  }

  /** The value of an option as a sequence of zero or one elements. */
  function AsSeq<T>(o: Option<T>): seq<T> {
    match o
    case Some(v) => [v]
    case None => []
  }

  /** The values of the present entries, in order. */
  function Present<T>(opts: seq<Option<T>>): (vals: seq<T>)
    ensures |vals| <= |opts|
    ensures forall v :: v in vals ==> exists i :: 0 <= i < |opts| && opts[i] == Some(v)
    ensures forall i :: 0 <= i < |opts| && opts[i].Some? ==> opts[i].value in vals
  {
    if opts == [] then []
    else
      var init := opts[..|opts| - 1];
      assert forall i :: 0 <= i < |init| ==> init[i] == opts[i];
      Present(init) + AsSeq(opts[|opts| - 1])
  }

  /** A sequence followed by two optional values keeps it as its prefix, and ends in the second value if present. */
  lemma AppendOptions<T>(xs: seq<T>, a: Option<T>, b: Option<T>)
    ensures var ys := xs + AsSeq(a) + AsSeq(b);
            && |ys| == |xs| + |AsSeq(a)| + |AsSeq(b)| <= |xs| + 2
            && ys[..|xs|] == xs
            && (b.Some? ==> ys[|ys| - 1] == b.value)
  {
    var ys := xs + AsSeq(a) + AsSeq(b);
    assert ys[..|xs|] == xs;
  }

  /** `f` applied to each element, in order. */
  function MapSeq<R, T>(xs: seq<R>, f: R -> T): (ys: seq<T>)
    ensures |ys| == |xs|
    ensures forall i :: 0 <= i < |xs| ==> ys[i] == f(xs[i])
  {
    seq(|xs|, i requires 0 <= i < |xs| => f(xs[i]))
  }

  /** Mapping one more element adds its value, if present, to the end. */
  lemma PresentMapSnoc<R, T>(xs: seq<R>, f: R -> Option<T>)
    requires xs != []
    ensures Present(MapSeq(xs, f)) == Present(MapSeq(xs[..|xs| - 1], f)) + AsSeq(f(xs[|xs| - 1]))
  {
    var opts := MapSeq(xs, f);
    assert opts[..|opts| - 1] == MapSeq(xs[..|xs| - 1], f);
  }

  /** A calendar date; the reminders only look at the day of the month. */
  datatype Date = Date(year: int, month: int, day: int)

  /** A row of `categories`. */
  datatype Category = Category(user: int, id: int, name: string, budget: int)

  /** A `transaction_type` label other than the two the reports read. */
  type OtherLabel = s: string | s != "income" && s != "expense" witness "transfer"

  /**
   * The `transaction_type` column: 'expense', 'income' or any other label.
   * The text 'income' is always `Income` and 'expense' always `Expense`.
   */
  datatype TxnType = Expense | Income | Other(name: OtherLabel)

  /** A row of `transactions`; `category` is NULL for transfers between accounts. */
  datatype Transaction = Transaction(
    user: int,
    account: int,
    category: Option<int>,
    amount: int,
    kind: TxnType,
    description: string,
    recurring: bool)

  /** A row of `category_commitments`. */
  datatype Commitment = Commitment(
    id: int,
    user: int,
    category: int,
    amount: int,
    dueDay: int,
    paid: bool,
    lastPaid: Option<Date>)

  /** A row of `ai_suggestions`, the notification table. */
  datatype Notification = Notification(user: int, content: string, created: Date, isRead: bool)

  /** A row of `SavingsGoal` (keyed by user). */
  datatype SavingsGoal = SavingsGoal(annualGoal: nat, monthlyCommit: nat, totalSaved: nat)

  /** The whole store. */
  class Store {
    var categories: seq<Category>
    var transactions: seq<Transaction>
    var commitments: seq<Commitment>
    var notifications: seq<Notification>
    /** `settings.notifications_enabled`, by user. */
    var settings: map<int, int>
    /** `salary_expectations.expected_day`, by user. */
    var salaryDays: map<int, int>
    var savings: map<int, SavingsGoal>
  }

  /** Some row of `categories` has this id (the inner joins on `category_id`). */
  predicate HasCategory(cats: seq<Category>, id: int) {
    exists i :: 0 <= i < |cats| && cats[i].id == id
  }

  /** The first row of `categories` with this id, as a join on `category_id` sees it. */
  function CategoryRow(cats: seq<Category>, id: int): (r: Option<Category>)
    ensures r.None? <==> !HasCategory(cats, id)
    ensures r.Some? ==> r.value in cats && r.value.id == id
  {
    if cats == [] then None
    else if cats[0].id == id then Some(cats[0])
    else
      var rest := CategoryRow(cats[1..], id);
      assert rest.Some? ==> rest.value in cats;
      assert !HasCategory(cats[1..], id) ==> !HasCategory(cats, id) by {
        if !HasCategory(cats[1..], id) {
          forall i | 0 <= i < |cats| ensures cats[i].id != id {
            if i > 0 { assert cats[i] == cats[1..][i - 1]; }
          }
        }
      }
      rest
  }

  /** A transaction counted by `get_spent`: an expense of `user` in category `cat`. */
  predicate IsExpenseIn(t: Transaction, user: int, cat: int) {
    t.user == user && t.category == Some(cat) && t.kind == Expense
  }

  /**
   * `SELECT SUM(amount) ... WHERE user_id = ? AND category_id = ? AND
   * transaction_type = 'expense'`: NULL (None) when no row matches.
   */
  function ExpenseSum(txns: seq<Transaction>, user: int, cat: int): (r: Option<int>)
    ensures r.None? <==> forall i :: 0 <= i < |txns| ==> !IsExpenseIn(txns[i], user, cat)
  {
    if txns == [] then None
    else
      var rest := ExpenseSum(txns[..|txns| - 1], user, cat);
      var t := txns[|txns| - 1];
      if IsExpenseIn(t, user, cat) then Some(rest.GetOr(0) + t.amount) else rest
  }

  /** `SELECT SUM(amount) ... GROUP BY transaction_type`, a missing group read as 0. */
  function Total(txns: seq<Transaction>, user: int, kind: TxnType): (r: int)
    ensures (forall i :: 0 <= i < |txns| ==> txns[i].user != user || txns[i].kind != kind) ==> r == 0
    ensures (forall i :: 0 <= i < |txns| && txns[i].user == user && txns[i].kind == kind ==> txns[i].amount >= 0) ==> r >= 0
  {
    if txns == [] then 0
    else
      var t := txns[|txns| - 1];
      Total(txns[..|txns| - 1], user, kind) + (if t.user == user && t.kind == kind then t.amount else 0)
  }

  /** A user with no transactions has every total equal to 0. */
  lemma TotalOfStranger(txns: seq<Transaction>, user: int, kind: TxnType)
    requires forall i :: 0 <= i < |txns| ==> txns[i].user != user
    ensures Total(txns, user, kind) == 0
  {
  }

  /** Appending a row moves a total only by that row's amount, and only for its own user and type. */
  lemma TotalAppend(txns: seq<Transaction>, t: Transaction, user: int, kind: TxnType)
    ensures Total(txns + [t], user, kind)
         == Total(txns, user, kind) + (if t.user == user && t.kind == kind then t.amount else 0)
  {
    assert (txns + [t])[..|txns|] == txns;
  }
}
