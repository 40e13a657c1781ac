/**
 * The landlord's finance ledger: the fixed category lists, the type filter,
 * the income / expense / net figures overall and for the current month, and
 * the "Add Transaction" form with its submit guard.
 */
module Finances {
  import opened Wrappers
  import opened Text
  import opened Sequences

  datatype TxType = Income | Expense

  /**
   * A row of `transactions`. The date is the "YYYY-MM-DD" text the date input
   * gives; amounts are whole numbers.
   */
  datatype Transaction = Transaction(
    id: string,
    landlordId: string,
    txType: TxType,
    category: string,
    description: Option<string>,
    amount: int,
    date: string,
    propertyId: Option<string>)

  /** `CATEGORIES`: the categories the form offers for each type. */
  function CategoriesOf(k: TxType): (r: seq<string>)
    ensures k == Income ==> |r| == 4
    ensures k == Expense ==> |r| == 6
    ensures "" !in r
  {
    match k
    case Income => ["Rent", "Deposit", "Late Fee", "Other Income"]
    case Expense => ["Maintenance", "Utilities", "Insurance", "Taxes", "Management Fee", "Other Expense"]
  }

  /** No category is offered for both types, so a category determines its type. */
  lemma CategoriesDisjoint(c: string)
    ensures !(c in CategoriesOf(Income) && c in CategoriesOf(Expense))
  {
  }

  // ---------------------------------------------------------------- queries

  /** `filteredTransactions`: `None` is "all". */
  function FilterTransactions(ts: seq<Transaction>, f: Option<TxType>): (r: seq<Transaction>)
    ensures f == None ==> r == ts
    ensures f.Some? ==> forall t :: t in r <==> t in ts && t.txType == f.value
    ensures |r| <= |ts|
    ensures IsSubsequence(r, ts)
  {
    if ts == [] then []
    else
      var rest := FilterTransactions(ts[1..], f);
      if f == None || ts[0].txType == f.value then [ts[0]] + rest else rest
  }

  /** `a` sorts no later than `b` as text: character by character, a prefix first. */
  predicate TextLe(a: string, b: string)
    decreases |a|
  {
    a == [] || (b != [] && (a[0] < b[0] || (a[0] == b[0] && TextLe(a[1..], b[1..]))))
  }

  /** Any two texts are ordered one way or the other. */
  lemma {:induction false} TextLeTotal(a: string, b: string)
    ensures TextLe(a, b) || TextLe(b, a)
    decreases |a|
  {
    if a != [] && b != [] && a[0] == b[0] {
      TextLeTotal(a[1..], b[1..]);
    }
  }

  /** Latest date first, the order in which the page fetches the rows. */
  predicate NewestFirst(ts: seq<Transaction>) {
    forall i :: 0 <= i < |ts| - 1 ==> TextLe(ts[i + 1].date, ts[i].date)
  }

  /** Where the refetch shows a new row: after the rows dated later than it, before the rest. */
  function InsertByDate(ts: seq<Transaction>, t: Transaction): (r: seq<Transaction>)
    ensures multiset(r) == multiset(ts) + multiset{t}
  {
    if ts == [] || TextLe(ts[0].date, t.date) then [t] + ts
    else
      assert ts == [ts[0]] + ts[1..];
      [ts[0]] + InsertByDate(ts[1..], t)
  }

  /** Inserting by date keeps the list latest-first. */
  lemma {:induction false} InsertKeepsNewestFirst(ts: seq<Transaction>, t: Transaction)
    requires NewestFirst(ts)
    ensures NewestFirst(InsertByDate(ts, t))
    ensures |ts| >= 1 ==> InsertByDate(ts, t)[0] == t || InsertByDate(ts, t)[0] == ts[0]
    decreases |ts|
  {
    if ts != [] && !TextLe(ts[0].date, t.date) {
      TextLeTotal(ts[0].date, t.date);
      InsertKeepsNewestFirst(ts[1..], t);
      var r := InsertByDate(ts, t);
      assert r[1..] == InsertByDate(ts[1..], t);
      assert TextLe(r[1].date, r[0].date);
    }
  }

  /** The sum of the amounts of one type. */
  function Total(ts: seq<Transaction>, k: TxType): int {
    if ts == [] then 0 else (if ts[0].txType == k then ts[0].amount else 0) + Total(ts[1..], k)
  }

  /** The sum of the amounts of one type dated in the given "YYYY-MM" month. */
  function Monthly(ts: seq<Transaction>, k: TxType, month: string): int {
    if ts == [] then 0
    else (if ts[0].txType == k && StartsWith(ts[0].date, month) then ts[0].amount else 0) + Monthly(ts[1..], k, month)
  }

  /** The sum of all amounts. */
  function Amounts(ts: seq<Transaction>): int {
    if ts == [] then 0 else ts[0].amount + Amounts(ts[1..])
  }

  /** Totals add up over a split of the ledger. */
  lemma {:induction false} TotalAppend(a: seq<Transaction>, b: seq<Transaction>, k: TxType)
    ensures Total(a + b, k) == Total(a, k) + Total(b, k)
  {
    if a != [] {
      assert (a + b)[1..] == a[1..] + b;
      TotalAppend(a[1..], b, k);
    } else {
      assert a + b == b;
    }
  }

  /** Income and expense split every amount between them. */
  lemma {:induction false} TotalsPartition(ts: seq<Transaction>)
    ensures Total(ts, Income) + Total(ts, Expense) == Amounts(ts)
  {
    if ts != [] {
      TotalsPartition(ts[1..]);
    }
  }

  /** The total of a type is the sum over what that type's filter shows. */
  lemma {:induction false} TotalOfFilter(ts: seq<Transaction>, k: TxType)
    ensures Total(ts, k) == Amounts(FilterTransactions(ts, Some(k)))
  {
    if ts != [] {
      TotalOfFilter(ts[1..], k);
    }
  }

  /** With no refunds (no negative amounts), a month's figure never exceeds the all-time figure. */
  lemma {:induction false} MonthlyAtMostTotal(ts: seq<Transaction>, k: TxType, month: string)
    requires forall i :: 0 <= i < |ts| ==> ts[i].amount >= 0
    ensures 0 <= Monthly(ts, k, month) <= Total(ts, k)
  {
    if ts != [] {
      MonthlyAtMostTotal(ts[1..], k, month);
    }
  }

  /** The summary cards. */
  datatype FinanceStats = FinanceStats(
    totalIncome: int,
    totalExpense: int,
    netIncome: int,
    monthlyIncome: int,
    monthlyExpense: int,
    monthlyNet: int)

  /** The `stats` memo, for the current "YYYY-MM" month. */
  function Stats(ts: seq<Transaction>, thisMonth: string): (r: FinanceStats)
    ensures r.totalIncome == Total(ts, Income) && r.totalExpense == Total(ts, Expense)
    ensures r.monthlyIncome == Monthly(ts, Income, thisMonth) && r.monthlyExpense == Monthly(ts, Expense, thisMonth)
    ensures r.netIncome == r.totalIncome - r.totalExpense
    ensures r.monthlyNet == r.monthlyIncome - r.monthlyExpense
  {
    var income := Total(ts, Income);
    var expense := Total(ts, Expense);
    var mIncome := Monthly(ts, Income, thisMonth);
    var mExpense := Monthly(ts, Expense, thisMonth);
    FinanceStats(income, expense, income - expense, mIncome, mExpense, mIncome - mExpense)
  }

  // ------------------------------------------------------------------- form

  /** The "Add Transaction" form; every field is the text of its input. */
  datatype TxDraft = TxDraft(txType: TxType, category: string, description: string, amount: string, date: string, propertyId: string)

  /** The form as first shown and after a successful submit: income, no category, dated today. */
  function BlankDraft(today: string): (d: TxDraft)
    ensures d.txType == Income && d.category == [] && d.amount == [] && d.date == today
  {
    TxDraft(Income, "", "", "", today, "")
  }

  /** The submit button is enabled only with an amount, a category and a date. */
  predicate CanSubmit(d: TxDraft) {
    d.amount != [] && d.category != [] && d.date != []
  }

  /** The row the form inserts, with the amount as parsed from its text; an empty description or property is stored as null. */
  function NewTransaction(id: string, landlord: string, d: TxDraft, amount: int): (t: Transaction)
    ensures t.txType == d.txType && t.category == d.category && t.date == d.date && t.amount == amount
    ensures t.description.None? <==> d.description == []
    ensures t.propertyId.None? <==> d.propertyId == []
  {
    Transaction(id, landlord, d.txType, d.category, NullIfEmpty(d.description), amount, d.date, NullIfEmpty(d.propertyId))
  }

  class FinancesPage {
    var user: Option<string>
    var transactions: seq<Transaction>
    var filter: Option<TxType>
    var showModal: bool
    var draft: TxDraft

    /** The form's category is empty or one offered for its type. */
    predicate Valid()
      reads this
    {
      draft.category == [] || draft.category in CategoriesOf(draft.txType)
    }

    constructor (user: Option<string>, transactions: seq<Transaction>, today: string)
      ensures this.user == user && this.transactions == transactions
      ensures filter == None && !showModal && draft == BlankDraft(today)
      ensures Valid()
    {
      this.user := user;
      this.transactions := transactions;
      filter := None;
      showModal := false;
      draft := BlankDraft(today);
    }

    /** The "Add Transaction" button in the header opens the form. */
    method OpenModal()
      modifies this
      ensures showModal
      ensures user == old(user) && transactions == old(transactions) && filter == old(filter) && draft == old(draft)
    {
      showModal := true;
    }

    /** A filter button; `None` is "all". */
    method SetFilter(f: Option<TxType>)
      modifies this
      ensures filter == f
      ensures user == old(user) && transactions == old(transactions) && showModal == old(showModal) && draft == old(draft)
    {
      filter := f;
    }

    /** The list on screen. */
    function Visible(): (r: seq<Transaction>)
      reads this
      ensures |r| <= |transactions|
      ensures forall t :: t in r <==> t in transactions && (filter == None || t.txType == filter.value)
      ensures IsSubsequence(r, transactions)
    {
      FilterTransactions(transactions, filter)
    }

    /** The Income / Expense toggle: switching type clears the category. */
    method SetType(k: TxType)
      modifies this
      ensures draft == old(draft).(txType := k, category := "")
      ensures Valid()
      ensures user == old(user) && transactions == old(transactions) && filter == old(filter) && showModal == old(showModal)
    {
      draft := draft.(txType := k, category := "");
    }

    /** The category select, which offers only the current type's categories and the empty choice. */
    method SelectCategory(c: string)
      modifies this
      ensures c == [] || c in CategoriesOf(old(draft).txType) ==> draft == old(draft).(category := c)
      ensures !(c == [] || c in CategoriesOf(old(draft).txType)) ==> unchanged(this)
      ensures old(Valid()) ==> Valid()
      ensures user == old(user) && transactions == old(transactions) && filter == old(filter) && showModal == old(showModal)
    {
      if c == [] || c in CategoriesOf(draft.txType) {
        draft := draft.(category := c);
      }
    }

    /**
     * `handleCreateTransaction` behind the submit button. `amount` is the value
     * parsed from the amount text; on success the form closes and is reset, and the
     * refetched list shows the new row among the others by date, latest first.
     */
    method CreateTransaction(insertOk: bool, newId: string, amount: int, today: string)
      modifies this
      ensures !(old(showModal && CanSubmit(draft)) && user.Some? && insertOk) ==> unchanged(this)
      ensures old(showModal && CanSubmit(draft)) && user.Some? && insertOk ==>
        && transactions == InsertByDate(old(transactions), NewTransaction(newId, user.value, old(draft), amount))
        && !showModal && draft == BlankDraft(today)
        && user == old(user) && filter == old(filter)
      ensures old(Valid()) ==> Valid()
      ensures old(NewestFirst(transactions)) ==> NewestFirst(transactions)
      ensures old(Valid() && showModal && CanSubmit(draft)) && user.Some? && insertOk ==>
        NewTransaction(newId, user.value, old(draft), amount).category in CategoriesOf(old(draft).txType)
    {
      if !showModal || !CanSubmit(draft) || user.None? || !insertOk {
        return;
      }
      if NewestFirst(transactions) {
        InsertKeepsNewestFirst(transactions, NewTransaction(newId, user.value, draft, amount));
      }
      transactions := InsertByDate(transactions, NewTransaction(newId, user.value, draft, amount));
      showModal := false;
      draft := BlankDraft(today);
    }
  }
}
