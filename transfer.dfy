/**
 * Transfers: paying into a category appends an expense and a notification;
 * moving money to savings appends an expense on the source account and an
 * income on the savings account, with no category.
 */
module Transfer {
  import opened Tables
  import opened Text
  import CommitmentManager
  import Budget
  import AiSuggestions

  /** The expense row `transfer_to_category` inserts; an empty note becomes the default description. */
  function CategoryTransferRow(user: int, account: int, cat: int, amount: int, note: string): (t: Transaction)
    ensures IsExpenseIn(t, user, cat) && t.amount == amount && t.account == account && !t.recurring
    ensures t.description == (if note == "" then "Transfer to category" else note)
  {
    Transaction(user, account, Some(cat), amount, Expense, if note == "" then "Transfer to category" else note, false)
  }

  /** The notification `transfer_to_category` adds, naming the amount and the category id. */
  function PaidMessage(amount: int, cat: int): string {
    " You paid " + FormatCents(amount) + " into category (ID: " + IntToString(cat) + ")"
  }

  /** `transfer_to_category`: one expense row, then one notification, with no duplicate check. */
  method TransferToCategory(db: Store, user: int, account: int, cat: int, amount: int, note: string, today: Date)
    modifies db`transactions, db`notifications
    ensures db.transactions == old(db.transactions) + [CategoryTransferRow(user, account, cat, amount, note)]
    ensures db.notifications == old(db.notifications) + [Notification(user, PaidMessage(amount, cat), today, false)]
  {
    db.transactions := db.transactions
      + [Transaction(user, account, Some(cat), amount, Expense, if note == "" then "Transfer to category" else note, false)];
    CommitmentManager.AddNotification(db, user, PaidMessage(amount, cat), today);
  }

  /** Paying into a category raises its spend by exactly the amount and leaves every other spend alone. */
  lemma TransferRaisesSpent(txns: seq<Transaction>, user: int, account: int, cat: int, amount: int, note: string,
                            user': int, cat': int)
    ensures Budget.Spent(txns + [CategoryTransferRow(user, account, cat, amount, note)], user', cat')
         == Budget.Spent(txns, user', cat') + (if user' == user && cat' == cat then amount else 0)
  {
    Budget.SpentAppend(txns, CategoryTransferRow(user, account, cat, amount, note), user', cat');
  }

  /** The two rows `transfer_to_savings` inserts, both with no category and the same amount. */
  function SavingsRows(user: int, from: int, to: int, amount: int, note: string): (rows: seq<Transaction>)
    ensures |rows| == 2 && rows[0].amount == rows[1].amount == amount
    ensures rows[0].kind == Expense && rows[0].account == from
    ensures rows[1].kind == Income && rows[1].account == to
    ensures rows[0].category.None? && rows[1].category.None?
    ensures rows[0].user == rows[1].user == user
    ensures rows[0].description == rows[1].description == note
    ensures !rows[0].recurring && !rows[1].recurring
  {
    [Transaction(user, from, None, amount, Expense, note, false),
     Transaction(user, to, None, amount, Income, note, false)]
  }

  /** `transfer_to_savings`: an expense on the source account, then an income on the savings account. */
  method TransferToSavings(db: Store, user: int, from: int, to: int, amount: int, note: string)
    modifies db`transactions
    ensures db.transactions == old(db.transactions) + SavingsRows(user, from, to, amount, note)
  {
    db.transactions := db.transactions + [Transaction(user, from, None, amount, Expense, note, false)];
    db.transactions := db.transactions + [Transaction(user, to, None, amount, Income, note, false)];
  }

  /** A savings transfer raises income and expense by the same amount: the balance is unchanged. */
  lemma SavingsKeepsBalance(txns: seq<Transaction>, user: int, from: int, to: int, amount: int, note: string, who: int)
    ensures var after := txns + SavingsRows(user, from, to, amount, note);
            Total(after, who, Income) - Total(after, who, Expense) == Total(txns, who, Income) - Total(txns, who, Expense)
  {
    var rows := SavingsRows(user, from, to, amount, note);
    var mid := txns + [rows[0]];
    assert txns + rows == mid + [rows[1]];
    TotalAppend(txns, rows[0], who, Income);
    TotalAppend(txns, rows[0], who, Expense);
    TotalAppend(mid, rows[1], who, Income);
    TotalAppend(mid, rows[1], who, Expense);
  }

  /** Hence a savings transfer never switches the spending-exceeds-income tip on or off. */
  lemma SavingsKeepsIncomeTip(txns: seq<Transaction>, user: int, from: int, to: int, amount: int, note: string, who: int)
    ensures AiSuggestions.IncomeTip(txns + SavingsRows(user, from, to, amount, note), who) == AiSuggestions.IncomeTip(txns, who)
  {
    var rows := SavingsRows(user, from, to, amount, note);
    var mid := txns + [rows[0]];
    assert txns + rows == mid + [rows[1]];
    TotalAppend(txns, rows[0], who, Income);
    TotalAppend(txns, rows[0], who, Expense);
    TotalAppend(mid, rows[1], who, Income);
    TotalAppend(mid, rows[1], who, Expense);
  }

  /** A savings transfer has no category, so it never changes any category's spend. */
  lemma SavingsKeepsSpent(txns: seq<Transaction>, user: int, from: int, to: int, amount: int, note: string, who: int, cat: int)
    ensures Budget.Spent(txns + SavingsRows(user, from, to, amount, note), who, cat) == Budget.Spent(txns, who, cat)
  {
    var rows := SavingsRows(user, from, to, amount, note);
    var mid := txns + [rows[0]];
    assert txns + rows == mid + [rows[1]];
    Budget.SpentAppend(txns, rows[0], who, cat);
    Budget.SpentAppend(mid, rows[1], who, cat);
  }
}
