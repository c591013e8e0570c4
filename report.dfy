/** The numbers and the order of the expense report: the income and expense
    totals over all of a user's accounts, one table per account with a
    running balance, and a combined list of every row sorted by date.
    Fonts, colours and page geometry are not modelled; a report is the data
    those pages would show.

    The per-account range query the report reads from is not part of the
    store's operations, so it is the parameter `query`: for an account id,
    the transactions of that account in the requested range. */
module Report {
  import opened Models
  import opened Strings
  import opened Crud

  /** A gathered transaction with the name of its account. */
  type Entry = (Option<string>, Transaction)

  /** The description, compared without case, that marks a balance correction. */
  const CorrectionLabel: string := "balance correction"
  /** The description is cut to this many characters in an account table ... */
  const TableDescriptionWidth: nat := 50
  /** ... and to this many in the combined list. */
  const CombinedDescriptionWidth: nat := 60

  predicate IsCorrection(t: Transaction) {
    Lower(t.description) == CorrectionLabel
  }

  predicate IsIncome(t: Transaction) {
    t.txnType == TypeName(Income)
  }

  predicate IsExpense(t: Transaction) {
    t.txnType == TypeName(Expense)
  }

  // ---------------------------------------------------------------------------
  // Totals and replay as functions of a sequence of transactions

  /** What one row adds to the income total: an income that is not a correction. */
  function IncomeShare(t: Transaction): int {
    if !IsCorrection(t) && IsIncome(t) then t.amount else 0
  }

  /** What one row adds to the expense total: anything but an income, unless a correction. */
  function ExpenseShare(t: Transaction): int {
    if !IsCorrection(t) && !IsIncome(t) then t.amount else 0
  }

  /** What one row does to the running balance: an income adds, anything else subtracts. */
  function Signed(t: Transaction): int {
    if IsIncome(t) then t.amount else -t.amount
  }

  /** What a correction row does to the running balance, and 0 for any other row. */
  function CorrectionSigned(t: Transaction): int {
    if IsCorrection(t) then Signed(t) else 0
  }

  function IncomeTotal(ts: seq<Transaction>): int {
    if ts == [] then 0 else IncomeTotal(ts[..|ts| - 1]) + IncomeShare(ts[|ts| - 1])
  }

  function ExpenseTotal(ts: seq<Transaction>): int {
    if ts == [] then 0 else ExpenseTotal(ts[..|ts| - 1]) + ExpenseShare(ts[|ts| - 1])
  }

  /** The running balance after the rows `ts`, starting from 0. */
  function Replay(ts: seq<Transaction>): int {
    if ts == [] then 0 else Replay(ts[..|ts| - 1]) + Signed(ts[|ts| - 1])
  }

  /** The part of the replay that comes from correction rows. */
  function CorrectionNet(ts: seq<Transaction>): int {
    if ts == [] then 0 else CorrectionNet(ts[..|ts| - 1]) + CorrectionSigned(ts[|ts| - 1])
  }

  /** One more row changes each total and the replay by that row's share. */
  lemma AppendOne(ts: seq<Transaction>, t: Transaction)
    ensures IncomeTotal(ts + [t]) == IncomeTotal(ts) + IncomeShare(t)
    ensures ExpenseTotal(ts + [t]) == ExpenseTotal(ts) + ExpenseShare(t)
    ensures Replay(ts + [t]) == Replay(ts) + Signed(t)
    ensures CorrectionNet(ts + [t]) == CorrectionNet(ts) + CorrectionSigned(t)
  {
    assert (ts + [t])[..|ts|] == ts;
  }

  /** A balance-correction row adds nothing to either total but still moves
      the running balance by its signed amount. */
  lemma CorrectionExcluded(ts: seq<Transaction>, t: Transaction)
    requires IsCorrection(t)
    ensures IncomeTotal(ts + [t]) == IncomeTotal(ts)
    ensures ExpenseTotal(ts + [t]) == ExpenseTotal(ts)
    ensures Replay(ts + [t]) == Replay(ts) + (if IsIncome(t) then t.amount else -t.amount)
  {
    AppendOne(ts, t);
  }

  /** The totals and the replay are sums: they distribute over concatenation. */
  lemma {:induction false} TotalsAppend(a: seq<Transaction>, b: seq<Transaction>)
    ensures IncomeTotal(a + b) == IncomeTotal(a) + IncomeTotal(b)
    ensures ExpenseTotal(a + b) == ExpenseTotal(a) + ExpenseTotal(b)
    ensures Replay(a + b) == Replay(a) + Replay(b)
    decreases |b|
  {
    if b == [] {
      assert a + b == a;
    } else {
      var init := b[..|b| - 1];
      var t := b[|b| - 1];
      assert b == init + [t];
      assert a + b == (a + init) + [t];
      TotalsAppend(a, init);
      AppendOne(a + init, t);
      AppendOne(init, t);
    }
  }

  /** The running balance of the rows is their income total less their
      expense total, plus what the correction rows, which both totals leave
      out, contribute. */
  lemma {:induction false} ReplaySplit(ts: seq<Transaction>)
    ensures Replay(ts) == IncomeTotal(ts) - ExpenseTotal(ts) + CorrectionNet(ts)
  {
    if ts != [] {
      ReplaySplit(ts[..|ts| - 1]);
    }
  }

  /** On the rows of one account whose types are members of the enumeration,
      the report's replay is the balance change the store records. */
  lemma {:induction false} ReplayIsNet(ts: seq<Transaction>, accountId: nat)
    requires forall i :: 0 <= i < |ts| ==> ts[i].accountId == accountId && TypeOf(ts[i].txnType).Some?
    ensures Replay(ts) == Net(ts, accountId)
  {
    if ts != [] {
      ReplayIsNet(ts[..|ts| - 1], accountId);
    }
  }

  // ---------------------------------------------------------------------------
  // Gathering the rows of every account

  /** The transactions of every account, account after account. */
  function Stream(accounts: seq<Account>, query: nat -> seq<Transaction>): seq<Transaction> {
    if accounts == [] then []
    else Stream(accounts[..|accounts| - 1], query) + query(accounts[|accounts| - 1].id)
  }

  /** The rows of one account, each with the account's name. */
  function Tag(name: Option<string>, ts: seq<Transaction>): (r: seq<Entry>)
    ensures |r| == |ts| && forall i :: 0 <= i < |ts| ==> r[i] == (name, ts[i])
  {
    seq(|ts|, i requires 0 <= i < |ts| => (name, ts[i]))
  }

  /** The combined list before sorting: every account's rows with its name. */
  function Gather(accounts: seq<Account>, query: nat -> seq<Transaction>): seq<Entry> {
    if accounts == [] then []
    else
      var a := accounts[|accounts| - 1];
      Gather(accounts[..|accounts| - 1], query) + Tag(a.name, query(a.id))
  }

  /** The gathered list holds exactly the streamed transactions, in the same
      order, each beside its account's name. */
  lemma {:induction false} GatherIsStream(accounts: seq<Account>, query: nat -> seq<Transaction>)
    ensures |Gather(accounts, query)| == |Stream(accounts, query)|
    ensures forall k :: 0 <= k < |Stream(accounts, query)| ==> Gather(accounts, query)[k].1 == Stream(accounts, query)[k]
  {
    if accounts != [] {
      var init := accounts[..|accounts| - 1];
      var a := accounts[|accounts| - 1];
      GatherIsStream(init, query);
      var g: seq<Entry> := Gather(init, query);
      var s: seq<Transaction> := Stream(init, query);
      var tags: seq<Entry> := Tag(a.name, query(a.id));
      forall k | 0 <= k < |s| + |query(a.id)| ensures (g + tags)[k].1 == (s + query(a.id))[k] {
        if k >= |s| {
          assert tags[k - |s|] == (a.name, query(a.id)[k - |s|]);
        }
      }
    }
  }

  /** The accounts that get a table: those whose query returns any row. */
  function WithTransactions(accounts: seq<Account>, query: nat -> seq<Transaction>): seq<Account> {
    if accounts == [] then []
    else
      var a := accounts[|accounts| - 1];
      WithTransactions(accounts[..|accounts| - 1], query) + (if query(a.id) != [] then [a] else [])
  }

  /** An account gets a table exactly when its query returns a row. */
  lemma {:induction false} WithTransactionsMembers(accounts: seq<Account>, query: nat -> seq<Transaction>)
    ensures |WithTransactions(accounts, query)| <= |accounts|
    ensures forall a :: a in WithTransactions(accounts, query) <==> a in accounts && query(a.id) != []
  {
    if accounts != [] {
      var init := accounts[..|accounts| - 1];
      WithTransactionsMembers(init, query);
      assert accounts == init + [accounts[|accounts| - 1]];
    }
  }

  lemma GatherStep(accounts: seq<Account>, i: nat, query: nat -> seq<Transaction>)
    requires i < |accounts|
    ensures Stream(accounts[..i + 1], query) == Stream(accounts[..i], query) + query(accounts[i].id)
    ensures Gather(accounts[..i + 1], query) == Gather(accounts[..i], query) + Tag(accounts[i].name, query(accounts[i].id))
  {
    assert accounts[..i + 1][..i] == accounts[..i];
  }

  lemma ShownStep(accounts: seq<Account>, i: nat, query: nat -> seq<Transaction>)
    requires i < |accounts|
    ensures Stream(accounts[..i + 1], query) == Stream(accounts[..i], query) + query(accounts[i].id)
    ensures WithTransactions(accounts[..i + 1], query)
         == WithTransactions(accounts[..i], query) + (if query(accounts[i].id) != [] then [accounts[i]] else [])
  {
    assert accounts[..i + 1][..i] == accounts[..i];
  }

  lemma TotalsStep(before: seq<Transaction>, txns: seq<Transaction>, j: nat)
    requires j < |txns|
    ensures IncomeTotal(before + txns[..j + 1]) == IncomeTotal(before + txns[..j]) + IncomeShare(txns[j])
    ensures ExpenseTotal(before + txns[..j + 1]) == ExpenseTotal(before + txns[..j]) + ExpenseShare(txns[j])
  {
    assert before + txns[..j + 1] == (before + txns[..j]) + [txns[j]];
    AppendOne(before + txns[..j], txns[j]);
  }

  /** The totals loop: visit every account's rows once, collect them with the
      account's name, and add each row to the income or the expense total
      unless it is a correction. */
  method Totals(accounts: seq<Account>, query: nat -> seq<Transaction>)
    returns (totalExpense: int, totalIncome: int, all: seq<Entry>)
    ensures all == Gather(accounts, query)
    ensures totalIncome == IncomeTotal(Stream(accounts, query))
    ensures totalExpense == ExpenseTotal(Stream(accounts, query))
  {
    totalExpense, totalIncome := 0, 0;
    all := [];
    for i := 0 to |accounts|
      invariant all == Gather(accounts[..i], query)
      invariant totalIncome == IncomeTotal(Stream(accounts[..i], query))
      invariant totalExpense == ExpenseTotal(Stream(accounts[..i], query))
    {
      var acc := accounts[i];
      var txns := query(acc.id);
      ghost var before := Stream(accounts[..i], query);
      GatherStep(accounts, i, query);
      if txns != [] {
        all := all + Tag(acc.name, txns);
        assert before + txns[..0] == before;
        for j := 0 to |txns|
          invariant totalIncome == IncomeTotal(before + txns[..j])
          invariant totalExpense == ExpenseTotal(before + txns[..j])
        {
          var t := txns[j];
          TotalsStep(before, txns, j);
          if Lower(t.description) != CorrectionLabel {
            if t.txnType == TypeName(Income) {
              totalIncome := totalIncome + t.amount;
            } else {
              totalExpense := totalExpense + t.amount;
            }
          }
        }
        assert txns[..|txns|] == txns;
      } else {
        assert before + txns == before;
        assert all + Tag(acc.name, txns) == all;
      }
    }
    assert accounts[..|accounts|] == accounts;
  }

  // ---------------------------------------------------------------------------
  // An account's table

  /** `None` in `spent` or `credited` is an empty cell. */
  datatype Row = Row(date: Date, spent: Option<int>, credited: Option<int>, balance: int, description: string)

  datatype Table = Table(title: Option<string>, rows: seq<Row>)

  /** What a table shows for the rows `ts` under the title `title`: one row
      per transaction, in order, with its date, the amount under Spent
      exactly for an expense and under Credited exactly for an income, the
      balance replayed from 0 up to and including that row, and the first
      characters of the description. */
  ghost predicate TableShows(tb: Table, title: Option<string>, ts: seq<Transaction>) {
    && tb.title == title
    && |tb.rows| == |ts|
    && forall i :: 0 <= i < |ts| ==> RowShows(tb.rows[i], ts, i)
  }

  /** What the table row for `ts[i]` shows. */
  ghost predicate RowShows(row: Row, ts: seq<Transaction>, i: nat)
    requires i < |ts|
  {
    var t := ts[i];
    && row.date == t.date
    && (row.spent.Some? <==> IsExpense(t))
    && (row.spent.Some? ==> row.spent.value == t.amount)
    && (row.credited.Some? <==> IsIncome(t))
    && (row.credited.Some? ==> row.credited.value == t.amount)
    && row.balance == Replay(ts[..i + 1])
    && row.description == Prefix(t.description, TableDescriptionWidth)
  }

  /** add_account_table: the rows of one account with a running balance
      starting from 0. */
  method AccountTable(title: Option<string>, txns: seq<Transaction>) returns (tb: Table)
    ensures TableShows(tb, title, txns)
  {
    var rows: seq<Row> := [];
    var balance := 0;
    for i := 0 to |txns|
      invariant |rows| == i && forall k :: 0 <= k < i ==> RowShows(rows[k], txns, k)
      invariant balance == Replay(txns[..i])
    {
      var txn := txns[i];
      var spent := if txn.txnType == TypeName(Expense) then Some(txn.amount) else None;
      var credited := if txn.txnType == TypeName(Income) then Some(txn.amount) else None;
      balance := balance + (if txn.txnType == TypeName(Income) then txn.amount else -txn.amount);
      assert txns[..i + 1] == txns[..i] + [txn];
      AppendOne(txns[..i], txn);
      var row := Row(txn.date, spent, credited, balance, Prefix(txn.description, TableDescriptionWidth));
      assert RowShows(row, txns, i);
      rows := rows + [row];
    }
    tb := Table(title, rows);
  }

  // ---------------------------------------------------------------------------
  // The combined list

  function Key(e: Entry): Date {
    e.1.date
  }

  /** Each row's date is no earlier than the one before it. */
  predicate SortedByDate(es: seq<Entry>) {
    forall k :: 0 < k < |es| ==> Key(es[k - 1]) <= Key(es[k])
  }

  /** Put `e` into a list, ahead of the first row with the same or a later
      date. */
  function Insert(e: Entry, es: seq<Entry>): (r: seq<Entry>)
    ensures |r| == |es| + 1 && multiset(r) == multiset(es) + multiset{e}
  {
    if es == [] || Key(e) <= Key(es[0]) then [e] + es
    else
      assert es == [es[0]] + es[1..];
      [es[0]] + Insert(e, es[1..])
  }

  /** Inserting into a sorted list keeps it sorted. */
  lemma {:induction false} InsertSorted(e: Entry, es: seq<Entry>)
    requires SortedByDate(es)
    ensures SortedByDate(Insert(e, es))
    ensures es != [] ==> Insert(e, es)[0] == e || Insert(e, es)[0] == es[0]
  {
    if es != [] && Key(es[0]) < Key(e) {
      var rest := Insert(e, es[1..]);
      InsertSorted(e, es[1..]);
      assert Key(es[0]) <= Key(rest[0]);
      var r := [es[0]] + rest;
      assert forall k :: 0 < k < |r| ==> r[k] == rest[k - 1];
    }
  }

  /** The combined list's order: by date, rows with the same date keeping
      the order in which they were gathered. */
  function SortByDate(es: seq<Entry>): (r: seq<Entry>)
    ensures |r| == |es| && multiset(r) == multiset(es)
    ensures SortedByDate(r)
  {
    if es == [] then []
    else
      assert es == [es[0]] + es[1..];
      var rest := SortByDate(es[1..]);
      InsertSorted(es[0], rest);
      Insert(es[0], rest)
  }

  datatype CombinedRow = CombinedRow(account: Option<string>, date: Date, spent: Option<int>, credited: Option<int>, description: string)

  /** How the combined list shows a gathered row. */
  function Line(e: Entry): (row: CombinedRow)
    ensures row.account == e.0 && row.date == e.1.date
    ensures row.spent.Some? <==> IsExpense(e.1)
    ensures row.credited.Some? <==> IsIncome(e.1)
    ensures row.spent.Some? || row.credited.Some? ==> (if row.spent.Some? then row.spent else row.credited) == Some(e.1.amount)
    ensures row.description == Prefix(e.1.description, CombinedDescriptionWidth)
  {
    var t := e.1;
    CombinedRow(e.0, t.date,
                if t.txnType == TypeName(Expense) then Some(t.amount) else None,
                if t.txnType == TypeName(Income) then Some(t.amount) else None,
                Prefix(t.description, CombinedDescriptionWidth))
  }

  /** add_combined_sheet: every gathered row once, in date order. */
  method CombinedSheet(all: seq<Entry>) returns (rows: seq<CombinedRow>)
    ensures |rows| == |all|
    ensures forall k :: 0 <= k < |rows| ==> rows[k] == Line(SortByDate(all)[k])
    ensures forall k :: 0 < k < |rows| ==> rows[k - 1].date <= rows[k].date
  {
    var order := SortByDate(all);
    rows := [];
    for k := 0 to |order|
      invariant |rows| == k
      invariant forall m :: 0 <= m < k ==> rows[m] == Line(order[m])
    {
      rows := rows + [Line(order[k])];
    }
  }

  // ---------------------------------------------------------------------------
  // The whole report

  datatype ReportData = ReportData(totalExpense: int, totalIncome: int, tables: seq<Table>, combined: seq<CombinedRow>)

  /** generate_pdf_report for the user `userId`: the totals over every row of
      every account the user owns; a table for exactly the accounts with
      rows, in account order; and, when there is any row, the combined list. */
  method GenerateReport(db: Db, userId: nat, query: nat -> seq<Transaction>) returns (r: ReportData)
    ensures var accounts := AllBalances(db.accounts, userId);
      var stream := Stream(accounts, query);
      var shown := WithTransactions(accounts, query);
      && r.totalIncome == IncomeTotal(stream)
      && r.totalExpense == ExpenseTotal(stream)
      && |r.tables| == |shown|
      && (forall k :: 0 <= k < |shown| ==> TableShows(r.tables[k], shown[k].name, query(shown[k].id)))
      && |r.combined| == |Gather(accounts, query)| == |stream|
      && (forall k :: 0 <= k < |r.combined| ==> r.combined[k] == Line(SortByDate(Gather(accounts, query))[k]))
      && (forall k :: 0 < k < |r.combined| ==> r.combined[k - 1].date <= r.combined[k].date)
  {
    var accounts := AllBalances(db.accounts, userId);
    var totalExpense, totalIncome, all := Totals(accounts, query);
    var tables: seq<Table> := [];
    for i := 0 to |accounts|
      invariant |tables| == |WithTransactions(accounts[..i], query)|
      invariant forall k :: 0 <= k < |tables| ==>
        TableShows(tables[k], WithTransactions(accounts[..i], query)[k].name, query(WithTransactions(accounts[..i], query)[k].id))
    {
      var acc := accounts[i];
      var txns := query(acc.id);
      ShownStep(accounts, i, query);
      ghost var shown := WithTransactions(accounts[..i], query);
      if txns != [] {
        var table := AccountTable(acc.name, txns);
        tables := tables + [table];
        assert WithTransactions(accounts[..i + 1], query) == shown + [acc];
      } else {
        assert WithTransactions(accounts[..i + 1], query) == shown;
      }
    }
    assert accounts[..|accounts|] == accounts;
    var combined := [];
    GatherIsStream(accounts, query);
    if all != [] {
      combined := CombinedSheet(all);
    }
    r := ReportData(totalExpense, totalIncome, tables, combined);
  }
}
