/** The navigation bar: budget notifications at the 70 % and 100 % marks, the
    unread badge, and the role-dependent navigation targets. */
module AdminNav {
  import opened Wrappers
  import opened Text
  import opened ClientRecords
  import opened Lists
  import opened BudgetPage

  /** The alert's category test: the lower-cased categories are equal. Unlike
      the budget page, an empty category is not excluded. */
  predicate SameCategory(t: ClientTransaction, b: ClientBudget) {
    t.category.Some? && Lower(t.category.value) == Lower(b.category)
  }

  predicate CountsForAlert(t: ClientTransaction, b: ClientBudget) {
    t.kind == Some("expense") && SameCategory(t, b)
  }

  /** Spent for an alert: every expense of the category, with no date window;
      0 when no transaction counts. */
  function AlertSpent(ts: seq<ClientTransaction>, b: ClientBudget): (r: real)
    ensures (forall i :: 0 <= i < |ts| ==> !CountsForAlert(ts[i], b)) ==> r == 0.0
  {
    TotalAmount(Filter(ts, t => CountsForAlert(t, b)))
  }

  /** One more transaction raises the alert's spent by its amount exactly
      when it is an `'expense'` (in that spelling) of the category, whatever
      its date. */
  lemma AlertSpentSnoc(ts: seq<ClientTransaction>, t: ClientTransaction, b: ClientBudget)
    ensures AlertSpent(ts + [t], b)
         == AlertSpent(ts, b) + (if CountsForAlert(t, b) then t.amount else 0.0)
  {
    var keep := (u: ClientTransaction) => CountsForAlert(u, b);
    FilterSnoc(ts, t, keep);
    TotalAmountAppend(Filter(ts, keep), if keep(t) then [t] else []);
  }

  datatype Level = Quiet | Warning | Exceeded

  /** The threshold rule on `spent / amount * 100`. A zero amount makes the
      JavaScript quotient an infinity (alert) or NaN (no alert). */
  function LevelOf(spent: real, amount: real): (r: Level)
    ensures amount != 0.0 ==> (r == Warning <==> 70.0 <= spent / amount * 100.0 < 100.0)
    ensures amount != 0.0 ==> (r == Exceeded <==> spent / amount * 100.0 >= 100.0)
    ensures amount != 0.0 ==> (r == Quiet <==> spent / amount * 100.0 < 70.0)
    ensures amount == 0.0 ==> (r == Exceeded <==> spent > 0.0)
    ensures amount == 0.0 ==> r != Warning
  {
    if amount == 0.0 then (if spent > 0.0 then Exceeded else Quiet)
    else
      var p := spent / amount * 100.0;
      if 70.0 <= p < 100.0 then Warning else if p >= 100.0 then Exceeded else Quiet
  }

  /** With a positive amount the thresholds are 70 % and 100 % of it. */
  lemma LevelThresholds(spent: real, amount: real)
    requires amount > 0.0
    ensures LevelOf(spent, amount) == Exceeded <==> spent >= amount
    ensures LevelOf(spent, amount) == Warning <==> 7.0 * amount <= 10.0 * spent && spent < amount
  {
    var p := spent / amount * 100.0;
    assert p * amount == spent * 100.0;
    ScaleOrder(70.0, p, amount);
    ScaleOrder(100.0, p, amount);
    assert 70.0 <= p <==> 7.0 * amount <= 10.0 * spent;
    assert 100.0 <= p <==> 100.0 * amount <= spent * 100.0;
    assert p < 100.0 <==> spent < amount;
  }

  lemma ScaleOrder(x: real, y: real, a: real)
    requires a > 0.0
    ensures x <= y <==> x * a <= y * a
  {
    if x <= y {
      assert (y - x) * a >= 0.0;
    } else {
      assert (x - y) * a > 0.0;
    }
  }

  datatype NoticeKind = WarningNotice | ErrorNotice

  /** One notification; the formatted details line is not modelled, only the
      remaining amount it shows. */
  datatype Notification = Notification(id: string, message: string, remaining: real, kind: NoticeKind)

  function NoticeId(b: ClientBudget): string {
    "budget-" + IntToString(b.id)
  }

  /** The notification one budget raises, if any. */
  function NoticeFor(b: ClientBudget, ts: seq<ClientTransaction>): (r: Option<Notification>)
    ensures r.Some? ==> r.value.id == NoticeId(b)
    ensures r.Some? ==> r.value.remaining == b.amount - AlertSpent(ts, b)
    ensures r.None? <==> LevelOf(AlertSpent(ts, b), b.amount) == Quiet
    ensures r.Some? ==> (r.value.kind == WarningNotice <==> LevelOf(AlertSpent(ts, b), b.amount) == Warning)
  {
    var spent := AlertSpent(ts, b);
    match LevelOf(spent, b.amount)
    case Warning => Some(Notification(NoticeId(b),
      "You're reaching your " + b.category + " budget limit!", b.amount - spent, WarningNotice))
    case Exceeded => Some(Notification(NoticeId(b),
      "You've exceeded your " + b.category + " budget!", b.amount - spent, ErrorNotice))
    case Quiet => None
  }

  /** The notifications of a list of budgets, in budget order: none for no
      budgets, and never more than there are budgets. */
  function Notices(bs: seq<ClientBudget>, ts: seq<ClientTransaction>): (r: seq<Notification>)
    ensures bs == [] ==> r == []
    ensures |r| <= |bs|
  {
    if bs == [] then []
    else
      var init := Notices(bs[..|bs| - 1], ts);
      match NoticeFor(bs[|bs| - 1], ts)
      case Some(n) => init + [n]
      case None => init
  }

  /** At most one notification per budget, and each comes from one of them. */
  lemma {:induction false} NoticesFromBudgets(bs: seq<ClientBudget>, ts: seq<ClientTransaction>)
    ensures |Notices(bs, ts)| <= |bs|
    ensures forall n :: n in Notices(bs, ts) ==> exists b :: b in bs && NoticeFor(b, ts) == Some(n)
  {
    if bs != [] {
      var init := bs[..|bs| - 1];
      NoticesFromBudgets(init, ts);
      forall n | n in Notices(bs, ts) ensures exists b :: b in bs && NoticeFor(b, ts) == Some(n) {
        if n in Notices(init, ts) {
          var b :| b in init && NoticeFor(b, ts) == Some(n);
          assert b in bs;
        } else {
          assert NoticeFor(bs[|bs| - 1], ts) == Some(n);
        }
      }
    }
  }

  /** A budget that crosses a threshold has its notification listed. */
  lemma {:induction false} NoticesComplete(bs: seq<ClientBudget>, ts: seq<ClientTransaction>, i: int)
    requires 0 <= i < |bs| && NoticeFor(bs[i], ts).Some?
    ensures NoticeFor(bs[i], ts).value in Notices(bs, ts)
  {
    var init := bs[..|bs| - 1];
    if i < |bs| - 1 {
      assert init[i] == bs[i];
      NoticesComplete(init, ts, i);
    }
  }

  /** The notifications follow the budgets' order: those of a concatenation
      are those of the first part followed by those of the second. */
  lemma {:induction false} NoticesAppend(bs: seq<ClientBudget>, cs: seq<ClientBudget>, ts: seq<ClientTransaction>)
    ensures Notices(bs + cs, ts) == Notices(bs, ts) + Notices(cs, ts)
    decreases |cs|
  {
    if cs == [] {
      assert bs + cs == bs;
    } else {
      var init := cs[..|cs| - 1];
      assert (bs + cs)[..|bs + cs| - 1] == bs + init;
      assert (bs + cs)[|bs + cs| - 1] == cs[|cs| - 1];
      NoticesAppend(bs, init, ts);
    }
  }

  function TransactionRoute(role: string): (r: string)
    ensures r == "/admin-transactions" <==> role == "ADMIN"
    ensures r == "/admin-transactions" || r == "/transaction"
  {
    if role == "ADMIN" then "/admin-transactions" else "/transaction"
  }

  function DashboardRoute(role: string): (r: string)
    ensures r == "/admin-dashboard" <==> role == "ADMIN"
    ensures r == "/admin-dashboard" || r == "/userDashboard"
  {
    if role == "ADMIN" then "/admin-dashboard" else "/userDashboard"
  }

  /** Component state of the bar; `location` is the route navigated to. */
  class Nav {
    var notifications: seq<Notification>
    var showNotifications: bool
    var hasUnread: bool
    var userRole: string
    var adminActiveTab: string
    var location: string

    constructor (location: string)
      ensures notifications == [] && !showNotifications && !hasUnread
      ensures userRole == "" && adminActiveTab == "dashboard" && this.location == location
    {
      notifications := [];
      showNotifications := false;
      hasUnread := false;
      userRole := "";
      adminActiveTab := "dashboard";
      this.location := location;
    }

    /** The badge over the bell. */
    predicate BadgeShown()
      reads this
    {
      |notifications| > 0 && hasUnread
    }

    /** `checkBudgetNotifications`: with both lists fetched, one pass over the
        budgets collects the notifications; the unread flag is raised only
        when there is at least one. A failed fetch changes nothing. */
    method CheckBudgetNotifications(response: Option<(seq<ClientBudget>, seq<ClientTransaction>)>)
      modifies this
      ensures response.Some? ==> notifications == Notices(response.value.0, response.value.1)
      ensures response.Some? ==> hasUnread == (old(hasUnread) || |notifications| > 0)
      ensures response.None? ==> notifications == old(notifications) && hasUnread == old(hasUnread)
      ensures showNotifications == old(showNotifications) && userRole == old(userRole)
      ensures adminActiveTab == old(adminActiveTab) && location == old(location)
    {
      if response.Some? {
        var (bs, ts) := response.value;
        var found: seq<Notification> := [];
        for i := 0 to |bs|
          invariant found == Notices(bs[..i], ts)
        {
          assert bs[..i + 1][..i] == bs[..i];
          match NoticeFor(bs[i], ts)
          case Some(n) =>
            found := found + [n];
          case None =>
        }
        assert bs[..|bs|] == bs;
        notifications := found;
        if |found| > 0 {
          hasUnread := true;
        }
      }
    }

    /** `fetchUser` on mount: the profile's role becomes the user's role; a
        profile without one leaves no role, which is not `'ADMIN'` either, and
        a failed request changes nothing. The full name is only displayed. */
    method LoadRole(profile: Option<Option<string>>)
      modifies this
      ensures profile.Some? ==> userRole == profile.value.GetOr("")
      ensures profile.None? ==> userRole == old(userRole)
      ensures notifications == old(notifications) && hasUnread == old(hasUnread)
      ensures showNotifications == old(showNotifications)
      ensures adminActiveTab == old(adminActiveTab) && location == old(location)
    {
      if profile.Some? {
        userRole := profile.value.GetOr("");
      }
    }

    /** The bell: toggles the panel, and opening it marks everything read. */
    method ToggleNotifications()
      modifies this
      ensures showNotifications == !old(showNotifications)
      ensures hasUnread == (old(hasUnread) && old(showNotifications))
      ensures notifications == old(notifications) && userRole == old(userRole)
      ensures adminActiveTab == old(adminActiveTab) && location == old(location)
    {
      var wasShown := showNotifications;
      showNotifications := !wasShown;
      if !wasShown {
        hasUnread := false;
      }
    }

    /** "Clear All": no notifications and nothing unread. */
    method ClearAll()
      modifies this
      ensures notifications == [] && !hasUnread && !BadgeShown()
      ensures showNotifications == old(showNotifications) && userRole == old(userRole)
      ensures adminActiveTab == old(adminActiveTab) && location == old(location)
    {
      notifications := [];
      hasUnread := false;
    }

    /** "My Dashboard": the admin dashboard's first tab for an ADMIN, the user
        dashboard otherwise. */
    method UserDash()
      modifies this
      ensures location == DashboardRoute(userRole)
      ensures adminActiveTab == if userRole == "ADMIN" then "dashboard" else old(adminActiveTab)
      ensures notifications == old(notifications) && hasUnread == old(hasUnread)
      ensures showNotifications == old(showNotifications) && userRole == old(userRole)
    {
      location := DashboardRoute(userRole);
      if userRole == "ADMIN" {
        adminActiveTab := "dashboard";
      }
    }

    /** "Transaction": the admin list for an ADMIN, the user page otherwise. */
    method Transactions()
      modifies this
      ensures location == TransactionRoute(userRole)
      ensures notifications == old(notifications) && hasUnread == old(hasUnread)
      ensures showNotifications == old(showNotifications) && userRole == old(userRole)
      ensures adminActiveTab == old(adminActiveTab)
    {
      location := TransactionRoute(userRole);
    }

    /** "Users": acts only for an ADMIN. */
    method Users()
      modifies this
      ensures userRole == "ADMIN" ==> location == "/admin-dashboard" && adminActiveTab == "users"
      ensures userRole != "ADMIN" ==> location == old(location) && adminActiveTab == old(adminActiveTab)
      ensures notifications == old(notifications) && hasUnread == old(hasUnread)
      ensures showNotifications == old(showNotifications) && userRole == old(userRole)
    {
      if userRole == "ADMIN" {
        location := "/admin-dashboard";
        adminActiveTab := "users";
      }
    }
  }
}
