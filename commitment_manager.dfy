/**
 * The commitment scheduler: reminders for unpaid monthly commitments,
 * classified by due day against today's day of the month, written through
 * a guard that skips a message already stored for the same user on the
 * same date; and the paid/unpaid life cycle of each commitment.
 */
module CommitmentManager {
  import opened Tables
  import opened Text

  // ---------------------------------------------------------------------
  // The notification store and its duplicate guard.

  /** `add_notification`: appends one unread row dated today, with no duplicate check. */
  method AddNotification(db: Store, user: int, content: string, today: Date)
    modifies db`notifications
    ensures db.notifications == old(db.notifications) + [Notification(user, content, today, false)]
  {
    db.notifications := db.notifications + [Notification(user, content, today, false)];
  }

  /** `already_notified`: a row with this user and exact content was created on `today`. */
  predicate AlreadyNotified(ns: seq<Notification>, user: int, content: string, today: Date)
    ensures AlreadyNotified(ns, user, content, today) <==>
              Notification(user, content, today, false) in ns || Notification(user, content, today, true) in ns
  {
    exists i :: 0 <= i < |ns| && ns[i].user == user && ns[i].content == content && ns[i].created == today
  }

  /**
   * The rows after offering `msgs`, in order, each through the guard
   * `if not already_notified(...): add_notification(...)`; later messages
   * see the rows added for earlier ones.
   */
  function DedupAppend(ns: seq<Notification>, user: int, msgs: seq<string>, today: Date): (r: seq<Notification>)
    ensures |ns| <= |r| <= |ns| + |msgs|
    ensures r[..|ns|] == ns
  {
    if msgs == [] then ns
    else
      var before := DedupAppend(ns, user, msgs[..|msgs| - 1], today);
      var m := msgs[|msgs| - 1];
      if AlreadyNotified(before, user, m, today) then before
      else before + [Notification(user, m, today, false)]
  }

  /**
   * Row `i` of `r` is one the guard may add: an unread row of the user dated
   * today, carrying one of the offered messages, which was not yet on
   * record for the user today among the rows before it.
   */
  predicate GuardedRow(r: seq<Notification>, i: int, user: int, msgs: seq<string>, today: Date)
    requires 0 <= i < |r|
  {
    && r[i] == Notification(user, r[i].content, today, false)
    && r[i].content in msgs
    && !AlreadyNotified(r[..i], user, r[i].content, today)
  }

  /** Every row the guard adds is a guarded row: an offered message not yet on record that day. */
  lemma {:induction false} DedupAppendExtends(ns: seq<Notification>, user: int, msgs: seq<string>, today: Date)
    ensures forall i :: |ns| <= i < |DedupAppend(ns, user, msgs, today)| ==>
              GuardedRow(DedupAppend(ns, user, msgs, today), i, user, msgs, today)
  {
    if msgs != [] {
      var prefix := msgs[..|msgs| - 1];
      var before := DedupAppend(ns, user, prefix, today);
      var r := DedupAppend(ns, user, msgs, today);
      var m := msgs[|msgs| - 1];
      DedupAppendExtends(ns, user, prefix, today);
      assert forall x :: x in prefix ==> x in msgs;
      if !AlreadyNotified(before, user, m, today) {
        assert r == before + [Notification(user, m, today, false)];
      } else {
        assert r == before;
      }
      forall i | |ns| <= i < |r|
        ensures GuardedRow(r, i, user, msgs, today)
      {
        if i < |before| {
          assert GuardedRow(before, i, user, prefix, today);
          assert r[i] == before[i];
          assert r[..i] == before[..i];
        } else {
          assert r[..i] == before;
        }
      }
    }
  }

  /** After the guard has run, every offered message is on record for the user today. */
  lemma {:induction false} DedupAppendNotifiesAll(ns: seq<Notification>, user: int, msgs: seq<string>, today: Date)
    ensures forall j :: 0 <= j < |msgs| ==> AlreadyNotified(DedupAppend(ns, user, msgs, today), user, msgs[j], today)
  {
    if msgs != [] {
      var prefix := msgs[..|msgs| - 1];
      var before := DedupAppend(ns, user, prefix, today);
      DedupAppendNotifiesAll(ns, user, prefix, today);
      var after := DedupAppend(ns, user, msgs, today);
      assert after[..|before|] == before;
      forall j | 0 <= j < |msgs| ensures AlreadyNotified(after, user, msgs[j], today) {
        if j < |msgs| - 1 {
          assert msgs[j] == prefix[j];
          var k :| 0 <= k < |before| && before[k].user == user && before[k].content == msgs[j] && before[k].created == today;
          assert after[k] == before[k];
        } else if !AlreadyNotified(before, user, msgs[j], today) {
          assert after[|before|] == Notification(user, msgs[j], today, false);
        } else {
          var k :| 0 <= k < |before| && before[k].user == user && before[k].content == msgs[j] && before[k].created == today;
          assert after[k] == before[k];
        }
      }
    }
  }

  /** Messages that are all on record already add nothing. */
  lemma {:induction false} DedupAppendSkipsNotified(ns: seq<Notification>, user: int, msgs: seq<string>, today: Date)
    requires forall j :: 0 <= j < |msgs| ==> AlreadyNotified(ns, user, msgs[j], today)
    ensures DedupAppend(ns, user, msgs, today) == ns
  {
    if msgs != [] {
      DedupAppendSkipsNotified(ns, user, msgs[..|msgs| - 1], today);
    }
  }

  /** Offering the same messages twice on the same day adds nothing the second time. */
  lemma DedupAppendIdempotent(ns: seq<Notification>, user: int, msgs: seq<string>, today: Date)
    ensures DedupAppend(DedupAppend(ns, user, msgs, today), user, msgs, today) == DedupAppend(ns, user, msgs, today)
  {
    DedupAppendNotifiesAll(ns, user, msgs, today);
    DedupAppendSkipsNotified(DedupAppend(ns, user, msgs, today), user, msgs, today);
  }

  /** No two rows share user, content and creation date: the dedup key. */
  predicate UniquePerDay(ns: seq<Notification>) {
    forall i, j :: 0 <= i < j < |ns| ==>
      ns[i].user != ns[j].user || ns[i].content != ns[j].content || ns[i].created != ns[j].created
  }

  /** Rows written only through the guard never break the one-per-user-content-day rule. */
  lemma {:induction false} DedupAppendKeepsUnique(ns: seq<Notification>, user: int, msgs: seq<string>, today: Date)
    requires UniquePerDay(ns)
    ensures UniquePerDay(DedupAppend(ns, user, msgs, today))
  {
    if msgs != [] {
      var before := DedupAppend(ns, user, msgs[..|msgs| - 1], today);
      DedupAppendKeepsUnique(ns, user, msgs[..|msgs| - 1], today);
      var m := msgs[|msgs| - 1];
      if !AlreadyNotified(before, user, m, today) {
        var after := before + [Notification(user, m, today, false)];
        forall i, j | 0 <= i < j < |after|
          ensures after[i].user != after[j].user || after[i].content != after[j].content || after[i].created != after[j].created
        {
          if j == |before| {
            assert !(before[i].user == user && before[i].content == m && before[i].created == today);
          }
        }
      }
    }
  }

  /** The guard works per calendar date: a message stored on one date is stored again on the next. */
  lemma GuardIsPerDate(ns: seq<Notification>, user: int, m: string, d1: Date, d2: Date)
    requires d1 != d2
    requires !AlreadyNotified(ns, user, m, d1) && !AlreadyNotified(ns, user, m, d2)
    ensures |DedupAppend(DedupAppend(ns, user, [m], d1), user, [m], d2)| == |ns| + 2
  {
    var once := DedupAppend(ns, user, [m], d1);
    assert [m][..0] == [] && [m][0] == m;
    assert DedupAppend(ns, user, [], d1) == ns;
    assert once == ns + [Notification(user, m, d1, false)];
    assert !AlreadyNotified(once, user, m, d2) by {
      forall i | 0 <= i < |once| ensures !(once[i].user == user && once[i].content == m && once[i].created == d2) {
        if i < |ns| { assert once[i] == ns[i]; }
      }
    }
  }

  // ---------------------------------------------------------------------
  // Classifying commitments.

  /** Where a due day stands against today's day of the month. */
  datatype DueStatus = Overdue | DueToday | Upcoming(days: int) | NotDue

  /**
   * The day-difference classifier: overdue, due today, due within the next
   * seven days (with the number of days), or nothing; exactly one holds.
   */
  function Classify(dueDay: int, today: int): (s: DueStatus)
    ensures s == Overdue <==> dueDay < today
    ensures s == DueToday <==> dueDay == today
    ensures s.Upcoming? <==> 0 < dueDay - today <= 7
    ensures s.Upcoming? ==> s.days == dueDay - today && 1 <= s.days <= 7
    ensures s == NotDue <==> dueDay - today > 7
  {
    if dueDay < today then Overdue
    else if dueDay == today then DueToday
    else if dueDay - today <= 7 then Upcoming(dueDay - today)
    else NotDue
  }

  /** A row of the commitments query: the commitment joined with its category's name. */
  datatype JoinedRow = JoinedRow(commitment: Commitment, name: string)

  /**
   * The commitments query: the user's commitments whose category row exists
   * (an inner join), in table order, each with its category's name.
   */
  function Joined(cats: seq<Category>, comms: seq<Commitment>, user: int): (rows: seq<JoinedRow>)
    ensures |rows| <= |comms|
    ensures forall r :: r in rows ==>
              && r.commitment in comms
              && r.commitment.user == user
              && HasCategory(cats, r.commitment.category)
              && r.name == CategoryRow(cats, r.commitment.category).value.name
    ensures forall c :: c in comms && c.user == user && HasCategory(cats, c.category) ==>
              JoinedRow(c, CategoryRow(cats, c.category).value.name) in rows
  {
    if comms == [] then []
    else
      var rest := Joined(cats, comms[..|comms| - 1], user);
      var c := comms[|comms| - 1];
      assert forall d :: d in comms <==> d in comms[..|comms| - 1] || d == c;
      if c.user == user && HasCategory(cats, c.category)
      then rest + [JoinedRow(c, CategoryRow(cats, c.category).value.name)]
      else rest
  }

  function OverdueMessage(name: string, amount: int): string {
    "\U{26A0}\U{FE0F} '" + name + "' commitment overdue! Pay " + FormatCents(amount)
  }

  function DueTodayMessage(name: string, amount: int): string {
    "\U{1F4C5} '" + name + "' is due today: " + FormatCents(amount)
  }

  function ReminderMessage(name: string, days: int): string {
    "\U{1F514} Reminder: '" + name + "' due in " + IntToString(days) + " days"
  }

  /** The message for one row, if any: paid commitments and far-off due days get none. */
  function CommitmentMessage(row: JoinedRow, today: int): (m: Option<string>)
    ensures m.Some? <==> !row.commitment.paid && !Classify(row.commitment.dueDay, today).NotDue?
  {
    if row.commitment.paid then None
    else
      match Classify(row.commitment.dueDay, today)
      case Overdue => Some(OverdueMessage(row.name, row.commitment.amount))
      case DueToday => Some(DueTodayMessage(row.name, row.commitment.amount))
      case Upcoming(days) => Some(ReminderMessage(row.name, days))
      case NotDue => None
  }

  /** The messages for the rows, in row order. */
  function Messages(rows: seq<JoinedRow>, today: int): (msgs: seq<string>)
    ensures |msgs| <= |rows|
  {
    if rows == [] then []
    else Messages(rows[..|rows| - 1], today) + AsSeq(CommitmentMessage(rows[|rows| - 1], today))
  }

  /**
   * The messages are exactly those of the unpaid rows due within the week
   * or earlier: each message comes from such a row, and each such row
   * contributes its message. A paid row therefore contributes nothing,
   * whatever the other rows are.
   */
  lemma MessagesPerRow(rows: seq<JoinedRow>, today: int)
    ensures forall m :: m in Messages(rows, today) ==>
              exists r :: r in rows && !r.commitment.paid && CommitmentMessage(r, today) == Some(m)
    ensures forall i :: 0 <= i < |rows| && CommitmentMessage(rows[i], today).Some? ==>
              CommitmentMessage(rows[i], today).value in Messages(rows, today)
  {
    MessagesArePresent(rows, today);
    var opts := RowMessages(rows, today);
    forall m | m in Messages(rows, today)
      ensures exists r :: r in rows && !r.commitment.paid && CommitmentMessage(r, today) == Some(m)
    {
      var i :| 0 <= i < |opts| && opts[i] == Some(m);
      assert rows[i] in rows;
    }
  }

  /** The message of a single row, as a function value. */
  function MessageOf(today: int): JoinedRow -> Option<string> {
    row => CommitmentMessage(row, today)
  }

  /** Each row's message, present or not. */
  function RowMessages(rows: seq<JoinedRow>, today: int): (opts: seq<Option<string>>)
    ensures |opts| == |rows|
    ensures forall i :: 0 <= i < |rows| ==> opts[i] == CommitmentMessage(rows[i], today)
  {
    MapSeq(rows, MessageOf(today))
  }

  /** The messages are the present row messages, in row order. */
  lemma {:induction false} MessagesArePresent(rows: seq<JoinedRow>, today: int)
    ensures Messages(rows, today) == Present(RowMessages(rows, today))
  {
    if rows != [] {
      var init := rows[..|rows| - 1];
      MessagesArePresent(init, today);
      PresentMapSnoc(rows, MessageOf(today));
    }
  }

  /** Paid commitments yield no message at all. */
  lemma {:induction false} AllPaidNoMessages(rows: seq<JoinedRow>, today: int)
    requires forall i :: 0 <= i < |rows| ==> rows[i].commitment.paid
    ensures Messages(rows, today) == []
  {
    if rows != [] {
      AllPaidNoMessages(rows[..|rows| - 1], today);
    }
  }

  /** The global notification toggle: a settings row whose flag is not 0. */
  predicate NotificationsEnabled(settings: map<int, int>, user: int) {
    user in settings && settings[user] != 0
  }

  /** The notification table after `check_commitments(user)` on `today`. */
  function CommitmentNotifications(settings: map<int, int>, cats: seq<Category>, comms: seq<Commitment>,
                                   ns: seq<Notification>, user: int, today: Date): (r: seq<Notification>)
    ensures |ns| <= |r| && r[..|ns|] == ns
    ensures !NotificationsEnabled(settings, user) ==> r == ns
    ensures NotificationsEnabled(settings, user) ==>
              var msgs := Messages(Joined(cats, comms, user), today.day);
              forall j :: 0 <= j < |msgs| ==> AlreadyNotified(r, user, msgs[j], today)
  {
    DedupAppendNotifiesAll(ns, user, Messages(Joined(cats, comms, user), today.day), today);
    if !NotificationsEnabled(settings, user) then ns
    else DedupAppend(ns, user, Messages(Joined(cats, comms, user), today.day), today)
  }

  /** Running `check_commitments` twice on the same day adds nothing the second time. */
  lemma CheckCommitmentsIdempotent(settings: map<int, int>, cats: seq<Category>, comms: seq<Commitment>,
                                   ns: seq<Notification>, user: int, today: Date)
    ensures var once := CommitmentNotifications(settings, cats, comms, ns, user, today);
            CommitmentNotifications(settings, cats, comms, once, user, today) == once
  {
    if NotificationsEnabled(settings, user) {
      DedupAppendIdempotent(ns, user, Messages(Joined(cats, comms, user), today.day), today);
    }
  }

  /** Without a settings row, or with the flag at 0, nothing is written. */
  lemma DisabledWritesNothing(settings: map<int, int>, cats: seq<Category>, comms: seq<Commitment>,
                              ns: seq<Notification>, user: int, today: Date)
    requires user !in settings || settings[user] == 0
    ensures CommitmentNotifications(settings, cats, comms, ns, user, today) == ns
  {
  }

  /** The if/elif chain of the loop body: the message for one row, if any. */
  method RowMessage(row: JoinedRow, todayDay: int) returns (emit: bool, msg: string)
    ensures emit <==> CommitmentMessage(row, todayDay).Some?
    ensures emit ==> CommitmentMessage(row, todayDay) == Some(msg)
  {
    var c := row.commitment;
    var daysUntil := c.dueDay - todayDay;
    msg := "";
    emit := true;
    if c.dueDay < todayDay && !c.paid {
      msg := OverdueMessage(row.name, c.amount);
    } else if c.dueDay == todayDay && !c.paid {
      msg := DueTodayMessage(row.name, c.amount);
    } else if 0 < daysUntil <= 7 && !c.paid {
      msg := ReminderMessage(row.name, daysUntil);
    } else {
      emit := false;
    }
  }

  /** The messages of one more row are the earlier messages followed by that row's message, if any. */
  lemma MessagesStep(rows: seq<JoinedRow>, i: int, today: int)
    requires 0 <= i < |rows|
    ensures CommitmentMessage(rows[i], today).None? ==> Messages(rows[..i + 1], today) == Messages(rows[..i], today)
    ensures CommitmentMessage(rows[i], today).Some? ==>
              Messages(rows[..i + 1], today) == Messages(rows[..i], today) + [CommitmentMessage(rows[i], today).value]
  {
    assert rows[..i + 1][..i] == rows[..i];
  }

  /** The loop of `check_commitments`: offers each row's message, if any, to the duplicate guard. */
  method NotifyRows(db: Store, user: int, rows: seq<JoinedRow>, today: Date)
    modifies db`notifications
    ensures db.notifications == DedupAppend(old(db.notifications), user, Messages(rows, today.day), today)
  {
    var todayDay := today.day;
    var i := 0;
    while i < |rows|
      invariant 0 <= i <= |rows|
      invariant db.notifications == DedupAppend(old(db.notifications), user, Messages(rows[..i], todayDay), today)
    {
      var emit, msg := RowMessage(rows[i], todayDay);
      MessagesStep(rows, i, todayDay);
      if emit {
        ghost var msgs := Messages(rows[..i], todayDay);
        assert (msgs + [msg])[..|msgs|] == msgs;
        if !AlreadyNotified(db.notifications, user, msg, today) {
          AddNotification(db, user, msg, today);
        }
      }
      i := i + 1;
    }
    assert rows[..i] == rows;
  }

  /** `check_commitments`: nothing when the toggle is off, else every joined commitment's message goes through the guard. */
  method CheckCommitments(db: Store, user: int, today: Date)
    modifies db`notifications
    ensures db.notifications
         == CommitmentNotifications(db.settings, db.categories, db.commitments, old(db.notifications), user, today)
  {
    if user !in db.settings || db.settings[user] == 0 {
      return;
    }
    NotifyRows(db, user, Joined(db.categories, db.commitments, user), today);
  }

  // ---------------------------------------------------------------------
  // The paid/unpaid life cycle.

  /** The commitments after `UPDATE ... SET is_paid = 1, last_paid_date = now WHERE commitment_id = id`. */
  function MarkPaid(comms: seq<Commitment>, id: int, now: Date): (r: seq<Commitment>)
    ensures |r| == |comms|
    ensures forall i :: 0 <= i < |r| ==>
              if comms[i].id == id then r[i].paid && r[i].lastPaid == Some(now) && r[i] == comms[i].(paid := true, lastPaid := Some(now))
              else r[i] == comms[i]
  {
    seq(|comms|, i requires 0 <= i < |comms| =>
      if comms[i].id == id then comms[i].(paid := true, lastPaid := Some(now)) else comms[i])
  }

  /** The commitments after `UPDATE ... SET is_paid = 0`: every row of every user. */
  function ResetAll(comms: seq<Commitment>): (r: seq<Commitment>)
    ensures |r| == |comms|
    ensures forall i :: 0 <= i < |r| ==> !r[i].paid && r[i] == comms[i].(paid := false)
  {
    seq(|comms|, i requires 0 <= i < |comms| => comms[i].(paid := false))
  }

  /** `mark_commitment_paid`: only the commitment with that id changes. */
  method MarkCommitmentPaid(db: Store, id: int, now: Date)
    modifies db`commitments
    ensures db.commitments == MarkPaid(old(db.commitments), id, now)
    ensures |db.commitments| == |old(db.commitments)|
    ensures forall i :: 0 <= i < |db.commitments| ==>
              if old(db.commitments)[i].id == id
              then db.commitments[i] == old(db.commitments)[i].(paid := true, lastPaid := Some(now))
              else db.commitments[i] == old(db.commitments)[i]
  {
    db.commitments := MarkPaid(db.commitments, id, now);
  }

  /** `reset_commitments_monthly`: every commitment becomes unpaid; nothing else about it changes. */
  method ResetCommitmentsMonthly(db: Store)
    modifies db`commitments
    ensures db.commitments == ResetAll(old(db.commitments))
    ensures |db.commitments| == |old(db.commitments)|
    ensures forall i :: 0 <= i < |db.commitments| ==>
              !db.commitments[i].paid && db.commitments[i] == old(db.commitments)[i].(paid := false)
  {
    db.commitments := ResetAll(db.commitments);
  }

  /** `maybe_reset_commitments`: resets on the first day of the month, and otherwise changes nothing. */
  method MaybeResetCommitments(db: Store, today: Date)
    modifies db`commitments
    ensures today.day == 1 ==> db.commitments == ResetAll(old(db.commitments))
    ensures today.day != 1 ==> db.commitments == old(db.commitments)
  {
    if today.day == 1 {
      ResetCommitmentsMonthly(db);
    }
  }

  /** Resetting is idempotent. */
  lemma ResetIdempotent(comms: seq<Commitment>)
    ensures ResetAll(ResetAll(comms)) == ResetAll(comms)
  {
  }

  /** After a reset, every commitment of the user that is joined to a category is reminded again by the classifier alone. */
  lemma {:induction false} ResetRowsUnpaid(cats: seq<Category>, comms: seq<Commitment>, user: int, today: int)
    ensures forall r :: r in Joined(cats, ResetAll(comms), user) ==>
              !r.commitment.paid &&
              (CommitmentMessage(r, today).Some? <==> !Classify(r.commitment.dueDay, today).NotDue?)
  {
  }

  /** Once a commitment is marked paid, the scheduler produces no message for it. */
  lemma MarkedPaidIsSilent(cats: seq<Category>, comms: seq<Commitment>, id: int, now: Date, user: int, today: int)
    ensures forall r :: r in Joined(cats, MarkPaid(comms, id, now), user) && r.commitment.id == id ==>
              CommitmentMessage(r, today).None?
  {
    var marked := MarkPaid(comms, id, now);
    forall r | r in Joined(cats, marked, user) && r.commitment.id == id
      ensures CommitmentMessage(r, today).None?
    {
      var k :| 0 <= k < |marked| && marked[k] == r.commitment;
      assert r.commitment.paid;
    }
  }
}
