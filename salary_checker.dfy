/**
 * The salary reminder: the same day-difference test as the commitment
 * scheduler, against the user's expected salary day, with no settings
 * gate and no duplicate guard.
 */
module SalaryChecker {
  import opened Tables
  import opened Text
  import CommitmentManager

  function SalaryExpectedMessage(days: int): string {
    "\U{1F4BC} Your salary is expected in " + IntToString(days) + " day(s). Don't forget your commitments."
  }

  const SalaryDayMessage: string := "\U{1F4B8} It's salary day today! Review your commitments and savings goals."

  /** The reminder for an expected salary day, if any: within the coming week, or today. */
  function SalaryMessage(expectedDay: int, today: int): (m: Option<string>)
    ensures m.Some? <==> 0 <= expectedDay - today <= 7
  {
    var daysUntil := expectedDay - today;
    if 0 < daysUntil <= 7 then Some(SalaryExpectedMessage(daysUntil))
    else if expectedDay == today then Some(SalaryDayMessage)
    else None
  }

  /**
   * The salary test agrees with the commitment classifier: an upcoming day
   * gives the reminder carrying the day count, the day itself gives the
   * salary-day message, a past day or one more than a week away gives none.
   */
  lemma SalaryFollowsClassifier(expectedDay: int, today: int)
    ensures SalaryMessage(expectedDay, today) ==
      match CommitmentManager.Classify(expectedDay, today)
      case Upcoming(days) => Some(SalaryExpectedMessage(days))
      case DueToday => Some(SalaryDayMessage)
      case Overdue => None
      case NotDue => None
  {
  }

  /** The rows `check_salary_reminder` appends: none without a salary-expectation row. */
  function SalaryRows(salaryDays: map<int, int>, user: int, today: Date): (rows: seq<Notification>)
    ensures user !in salaryDays ==> rows == []
    ensures |rows| <= 1
    ensures user in salaryDays && SalaryMessage(salaryDays[user], today.day).Some? ==>
              rows == [Notification(user, SalaryMessage(salaryDays[user], today.day).value, today, false)]
    ensures rows != [] ==> user in salaryDays && SalaryMessage(salaryDays[user], today.day).Some?
  {
    if user !in salaryDays then []
    else
      match SalaryMessage(salaryDays[user], today.day)
      case Some(m) => [Notification(user, m, today, false)]
      case None => []
  }

  /** `check_salary_reminder`: appends the reminder, if any, without looking for an earlier copy. */
  method CheckSalaryReminder(db: Store, user: int, today: Date)
    modifies db`notifications
    ensures db.notifications == old(db.notifications) + SalaryRows(db.salaryDays, user, today)
  {
    var todayDay := today.day;
    if user !in db.salaryDays {
      return;
    }
    var expectedDay := db.salaryDays[user];
    var daysUntil := expectedDay - todayDay;
    if 0 < daysUntil <= 7 {
      CommitmentManager.AddNotification(db, user, SalaryExpectedMessage(daysUntil), today);
    } else if expectedDay == todayDay {
      CommitmentManager.AddNotification(db, user, SalaryDayMessage, today);
    }
  }
}
