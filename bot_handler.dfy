/** The webhook's dispatch: resolve the sender to a user, then apply the
    interpreted intent to the ledger as one of four operations (record an
    income or expense, read the balances, set a balance through a correction
    entry, transfer between two accounts) or answer that the message was not
    understood.

    `StepHandle` and the functions it calls are the dispatch as a function
    of the database; the lemmas after them state what each branch does.
    `HandleMessage` is the handler as it runs against a `Ledger`, step by
    step, and is proved to perform `StepHandle`. */
module BotHandler {
  import opened Models
  import opened Intents
  import opened Crud

  /** The reply sent back to the chat, before it is rendered as text. */
  datatype Reply =
    | Recorded(txnType: TransactionType, amount: int, account: Option<string>,
               description: Option<string>, date: Option<Date>)
    | Balances(lines: seq<(Option<string>, int)>)
    | Adjusted(account: Option<string>, target: int, correction: TransactionType, correctionAmount: int)
    | Transferred(amount: int, from: Option<string>, to: Option<string>)
    | NotUnderstood

  /** `Raised`: the request ended in an exception before any reply was sent;
      whatever had been committed by then stays committed. */
  datatype Outcome = Replied(reply: Reply) | Raised

  const NotUnderstoodText: string := "Sorry, I couldn't understand that."
  const CorrectionDescription: string := "Balance correction"

  function Abs(x: int): int {
    if x < 0 then -x else x
  }

  /** A subscript `parsed[key]`: `None` when the key is missing (a KeyError),
      else the value, with null read as no name. */
  function Subscript(f: Field<string>): Option<Option<string>> {
    match f
    case Absent => None
    case Null => Some(None)
    case Given(v) => Some(Some(v))
  }

  /** The record path's intents: an income or expense to create. */
  predicate IsRecord(intent: Intent) {
    (intent.kind == Kind.Income || intent.kind == Kind.Expense) && intent.action == Create
  }

  predicate IsBalanceRead(intent: Intent) {
    intent.kind == Balance && intent.action == Read
  }

  /** The intents no branch of the dispatch handles. */
  predicate IsUnhandled(intent: Intent) {
    !IsRecord(intent) && !IsBalanceRead(intent) && intent.kind != BalanceAdjustment && intent.kind != Transfer
  }

  function RecordType(kind: Kind): TransactionType {
    if kind == Kind.Income then TransactionType.Income else TransactionType.Expense
  }

  /** The reply's description line is shown only for a description other
      than the default. */
  function DescriptionLine(description: string): Option<string> {
    if description != DefaultDescription then Some(description) else None
  }

  /** The type of the correction that takes a balance to its target. */
  function CorrectionType(diff: int): TransactionType {
    if diff > 0 then TransactionType.Income else TransactionType.Expense
  }

  /** The balance move of a transaction of a member of the enumeration. */
  lemma EffectOfType(t: TransactionType, amount: int)
    ensures Effect(TypeName(t), amount) == if t == TransactionType.Income then amount else -amount
  {
  }

  function Lines(accounts: seq<Account>): (r: seq<(Option<string>, int)>)
    ensures |r| == |accounts|
    ensures forall i :: 0 <= i < |accounts| ==> r[i] == (accounts[i].name, accounts[i].balance)
  {
    if accounts == [] then [] else [(accounts[0].name, accounts[0].balance)] + Lines(accounts[1..])
  }

  // ---------------------------------------------------------------------------
  // The dispatch as a function of the database

  /** Look the sender up; create them when unseen. */
  function StepResolveUser(db: Db, telegramId: string, name: string): (Db, Option<User>) {
    match FindUser(db.users, telegramId)
    case Some(u) => (db, Some(u))
    case None => StepCreateUser(db, telegramId, name)
  }

  /** The account a lookup found, or else a new one with balance 0. */
  function KeepOrCreate(db: Db, userId: nat, found: Option<Account>, name: Option<string>): (Db, Option<Account>) {
    if found.Some? then (db, found) else StepCreateAccount(db, userId, name, 0)
  }

  /** Look the account up by name; create it with balance 0 when absent. */
  function StepFindOrCreate(db: Db, userId: nat, name: Option<string>): (Db, Option<Account>) {
    KeepOrCreate(db, userId, FindAccount(db.accounts, userId, name), name)
  }

  function StepRecord(db: Db, now: Date, userId: nat, intent: Intent): (Db, Outcome) {
    match Subscript(intent.account)
    case None => (db, Raised)
    case Some(name) =>
      var (db1, acc) := StepFindOrCreate(db, userId, name);
      if acc.None? then (db1, Raised)
      else
        var tt := RecordType(intent.kind);
        var (db2, t) := StepAddTransaction(db1, acc.value.id, intent.amount, intent.description, TypeName(tt), intent.date, now);
        if t.None? then (db2, Raised)
        else (db2, Replied(Recorded(tt, intent.amount, name, DescriptionLine(intent.description), intent.date)))
  }

  function StepAdjust(db: Db, defaultDate: Date, now: Date, userId: nat, intent: Intent): (Db, Outcome) {
    match Subscript(intent.account)
    case None => (db, Raised)
    case Some(name) =>
      var (db1, acc) := StepFindOrCreate(db, userId, name);
      if acc.None? then (db1, Raised)
      else StepCorrect(db1, acc.value, name, intent.amount, Some(defaultDate), now)
  }

  /** The correction entry that takes account `acc` to `target`. */
  function StepCorrect(db: Db, acc: Account, name: Option<string>, target: int, date: Option<Date>, now: Date): (Db, Outcome) {
    var diff := target - acc.balance;
    var ct := CorrectionType(diff);
    var (db2, t) := StepAddTransaction(db, acc.id, Abs(diff), CorrectionDescription, TypeName(ct), date, now);
    if t.None? then (db2, Raised)
    else (db2, Replied(Adjusted(name, target, ct, Abs(diff))))
  }

  /** The transfer's two accounts: both names are looked up first, then
      whichever was not found is created, the source before the target. */
  function StepTransferAccounts(db: Db, userId: nat, fromName: Option<string>, toName: Option<string>)
    : (Db, Option<Account>, Option<Account>)
  {
    var fromFound := FindAccount(db.accounts, userId, fromName);
    var toFound := FindAccount(db.accounts, userId, toName);
    var (db1, from) := KeepOrCreate(db, userId, fromFound, fromName);
    if from.None? then (db1, None, None)
    else
      var (db2, to) := KeepOrCreate(db1, userId, toFound, toName);
      (db2, from, to)
  }

  function StepTransfer(db: Db, defaultDate: Date, now: Date, userId: nat, fromName: Option<string>, toName: Option<string>,
                        amount: int, description: string): (Db, Outcome)
  {
    var (db2, from, to) := StepTransferAccounts(db, userId, fromName, toName);
    if from.None? || to.None? then (db2, Raised)
    else StepTransferLegs(db2, from.value.id, to.value.id, amount, description, Some(defaultDate), now, fromName, toName)
  }

  /** The two legs of a transfer: an expense on the source, then an income
      on the target. */
  function StepTransferLegs(db: Db, f: nat, t: nat, amount: int, description: string, date: Option<Date>, now: Date,
                            fromName: Option<string>, toName: Option<string>): (Db, Outcome)
  {
    var (db3, t1) := StepAddTransaction(db, f, amount, description, "expense", date, now);
    if t1.None? then (db3, Raised)
    else
      var (db4, t2) := StepAddTransaction(db3, t, amount, description, "income", date, now);
      if t2.None? then (db4, Raised)
      else (db4, Replied(Transferred(amount, fromName, toName)))
  }

  /** The if/elif chain of the handler, for a resolved user. */
  function StepDispatch(db: Db, defaultDate: Date, now: Date, userId: nat, intent: Intent): (Db, Outcome) {
    if IsRecord(intent) then StepRecord(db, now, userId, intent)
    else if IsBalanceRead(intent) then (db, Replied(Balances(Lines(AllBalances(db.accounts, userId)))))
    else if intent.kind == BalanceAdjustment then StepAdjust(db, defaultDate, now, userId, intent)
    else if intent.kind == Transfer then
      StepTransfer(db, defaultDate, now, userId, GetOr(intent.fromAccount, DefaultAccount), GetOr(intent.account, DefaultAccount),
                   intent.amount, intent.description)
    else (db, Replied(NotUnderstood))
  }

  function StepHandle(db: Db, defaultDate: Date, now: Date, telegramId: string, name: string, intent: Intent): (Db, Outcome) {
    var (db1, user) := StepResolveUser(db, telegramId, name);
    if user.None? then (db1, Raised)
    else StepDispatch(db1, defaultDate, now, user.value.id, intent)
  }

  // ---------------------------------------------------------------------------
  // What each branch does

  /** A sender already in the store is reused; an unseen one becomes exactly
      one new user. Either way a user with that telegram id results. */
  lemma ResolveUserSpec(db: Db, telegramId: string, name: string)
    requires WellFormed(db)
    ensures var (db', u) := StepResolveUser(db, telegramId, name);
      && u.Some? && u.value.telegramId == telegramId
      && 1 <= u.value.id <= |db'.users| && db'.users[u.value.id - 1] == u.value
      && db'.accounts == db.accounts && db'.transactions == db.transactions
      && WellFormed(db')
      && (FindUser(db.users, telegramId).Some? ==> db' == db)
      && (FindUser(db.users, telegramId).None? ==> db'.users == db.users + [User(|db.users| + 1, telegramId, name)])
  {
    CreateUserSpec(db, [], telegramId, name);
    match FindUser(db.users, telegramId)
    case Some(u) =>
      var i :| 0 <= i < |db.users| && db.users[i] == u;
      assert u.id == i + 1;
    case None =>
  }

  /** Under the serial keys, an account at its place in the store. */
  predicate Placed(db: Db, a: Account) {
    1 <= a.id <= |db.accounts| && db.accounts[a.id - 1] == a
  }

  /** What get_account_by_name finds is a stored account of the user, at
      the place its key names. */
  lemma FoundIsPlaced(db: Db, userId: nat, name: Option<string>)
    requires WellFormed(db)
    ensures var found := FindAccount(db.accounts, userId, name);
      found.Some? ==> Placed(db, found.value) && found.value.userId == userId
  {
    FindAccountSpec(db.accounts, userId, name);
    var found := FindAccount(db.accounts, userId, name);
    if found.Some? {
      var i :| 0 <= i < |db.accounts| && db.accounts[i] == found.value;
      assert found.value.id == i + 1;
    }
  }

  /** Keeping a found account changes nothing; creating one appends it with
      the next key, the given name and balance 0. Either way the result is
      an account of the user at its place, and every earlier row stays. */
  lemma KeepOrCreateSpec(db: Db, userId: nat, found: Option<Account>, name: Option<string>)
    requires WellFormed(db) && 1 <= userId <= |db.users|
    requires found.Some? ==> Placed(db, found.value) && found.value.userId == userId
    ensures var (db', a) := KeepOrCreate(db, userId, found, name);
      && a.Some? && a.value.userId == userId && Placed(db', a.value)
      && db'.users == db.users && db'.transactions == db.transactions
      && WellFormed(db')
      && (found.Some? ==> db' == db && a == found)
      && (found.None? ==> db'.accounts == db.accounts + [a.value] && a.value.id == |db.accounts| + 1
                          && a.value.name == name && a.value.balance == 0)
  {
    CreateAccountSpec(db, [], userId, name, 0);
  }

  /** The named account of the user, created with balance 0 when the lookup
      finds none. */
  lemma FindOrCreateSpec(db: Db, userId: nat, name: Option<string>)
    requires WellFormed(db) && 1 <= userId <= |db.users|
    ensures var (db', a) := StepFindOrCreate(db, userId, name);
      var found := FindAccount(db.accounts, userId, name);
      && a.Some? && a.value.userId == userId
      && 1 <= a.value.id <= |db'.accounts| && db'.accounts[a.value.id - 1] == a.value
      && db'.users == db.users && db'.transactions == db.transactions
      && WellFormed(db')
      && (found.Some? ==> db' == db && a == found)
      && (found.None? ==> db'.accounts == db.accounts + [a.value] && a.value.id == |db.accounts| + 1
                          && a.value.name == name && a.value.balance == 0)
  {
    FoundIsPlaced(db, userId, name);
    KeepOrCreateSpec(db, userId, FindAccount(db.accounts, userId, name), name);
  }

  /** Recording an income or expense: the named account (created at 0 when
      absent) moves by +amount or -amount, exactly one transaction with the
      intent's fields is appended, nothing else changes, and the reply carries
      a description only when it is not the default and a date only when one
      was given. The row is dated with the intent's date, or with the
      database clock `now` when the intent has none. A missing account key
      raises before anything is written. */
  lemma RecordSpec(db: Db, now: Date, userId: nat, intent: Intent)
    requires WellFormed(db) && 1 <= userId <= |db.users| && IsRecord(intent)
    ensures intent.account.Absent? ==> StepRecord(db, now, userId, intent) == (db, Raised)
    ensures !intent.account.Absent? ==>
      var name := Subscript(intent.account).value;
      var found := FindAccount(db.accounts, userId, name);
      var (db1, acc) := StepFindOrCreate(db, userId, name);
      var (db', out) := StepRecord(db, now, userId, intent);
      acc.Some? &&
      var id := acc.value.id;
      && out == Replied(Recorded(RecordType(intent.kind), intent.amount, name, DescriptionLine(intent.description), intent.date))
      && (out.reply.description.Some? <==> intent.description != DefaultDescription)
      && db'.users == db.users
      && db'.transactions == db.transactions
           + [Transaction(|db.transactions| + 1, intent.amount, intent.description,
                          TypeName(RecordType(intent.kind)), StoredDate(intent.date, now), None, id)]
      && db'.transactions[|db.transactions|].date == (if intent.date.Some? then intent.date.value else now)
      && 1 <= id <= |db'.accounts|
      && db'.accounts[id - 1]
           == (if found.Some? then found.value else Account(|db.accounts| + 1, name, ColumnDefault, 0, userId))
                .(balance := db'.accounts[id - 1].balance)
      && db'.accounts[id - 1].balance
           == (if found.Some? then found.value.balance else 0)
              + (if intent.kind == Kind.Income then intent.amount else -intent.amount)
      && (found.Some? ==> id == found.value.id && |db'.accounts| == |db.accounts|)
      && (found.None? ==> id == |db.accounts| + 1 && |db'.accounts| == |db.accounts| + 1
                          && db'.accounts[id - 1].name == name && db'.accounts[id - 1].userId == userId)
      && (forall i :: 0 <= i < |db.accounts| && i != id - 1 ==> db'.accounts[i] == db.accounts[i])
      && WellFormed(db')
  {
    if !intent.account.Absent? {
      var name := Subscript(intent.account).value;
      FindOrCreateSpec(db, userId, name);
      var (db1, acc) := StepFindOrCreate(db, userId, name);
      var tt := RecordType(intent.kind);
      EffectOfType(tt, intent.amount);
      AddTransactionSpec(db1, acc.value.id, intent.amount, intent.description, TypeName(tt), intent.date, now);
      AddTransactionKeepsInvariants(db1, [], acc.value.id, intent.amount, intent.description, TypeName(tt), intent.date, now);
    }
  }

  /** The correction entry that sets account `acc` to `target`: an income of
      the difference when the difference is positive and otherwise an expense
      of its magnitude (so a zero difference is an expense of 0). Afterwards
      the account holds exactly `target`, and nothing else changes but the
      appended row. */
  lemma CorrectionSpec(db: Db, acc: Account, name: Option<string>, target: int, date: Option<Date>, now: Date)
    requires WellFormed(db) && 1 <= acc.id <= |db.accounts| && db.accounts[acc.id - 1] == acc
    ensures
      var diff := target - acc.balance;
      var ct := CorrectionType(diff);
      var (db', out) := StepCorrect(db, acc, name, target, date, now);
      && out == Replied(Adjusted(name, target, ct, Abs(diff)))
      && db'.accounts[acc.id - 1] == acc.(balance := target)
      && (ct == TransactionType.Income <==> diff > 0)
      && (diff == 0 ==> ct == TransactionType.Expense && Abs(diff) == 0)
      && db'.transactions == db.transactions
           + [Transaction(|db.transactions| + 1, Abs(diff), CorrectionDescription, TypeName(ct), StoredDate(date, now), None, acc.id)]
      && db'.users == db.users && |db'.accounts| == |db.accounts|
      && (forall i :: 0 <= i < |db.accounts| && i != acc.id - 1 ==> db'.accounts[i] == db.accounts[i])
      && WellFormed(db')
  {
    var diff := target - acc.balance;
    EffectOfType(CorrectionType(diff), Abs(diff));
    AddTransactionSpec(db, acc.id, Abs(diff), CorrectionDescription, TypeName(CorrectionType(diff)), date, now);
    AddTransactionKeepsInvariants(db, [], acc.id, Abs(diff), CorrectionDescription, TypeName(CorrectionType(diff)), date, now);
    var (db2, t) := StepAddTransaction(db, acc.id, Abs(diff), CorrectionDescription, TypeName(CorrectionType(diff)), date, now);
    assert t.Some?;
    assert StepCorrect(db, acc, name, target, date, now) == (db2, Replied(Adjusted(name, target, CorrectionType(diff), Abs(diff))));
  }

  /** Setting a balance: the named account is found or created at 0 (as
      `FindOrCreateSpec` states), then receives the correction entry of
      `CorrectionSpec`, dated with add_transaction's default, so that it
      ends holding exactly the requested amount. A missing account key
      raises before anything is written. */
  lemma AdjustSpec(db: Db, defaultDate: Date, now: Date, userId: nat, intent: Intent)
    requires WellFormed(db) && 1 <= userId <= |db.users| && intent.kind == BalanceAdjustment
    ensures intent.account.Absent? ==> StepAdjust(db, defaultDate, now, userId, intent) == (db, Raised)
    ensures !intent.account.Absent? ==>
      var name := Subscript(intent.account).value;
      var (db1, acc) := StepFindOrCreate(db, userId, name);
      var (db', out) := StepAdjust(db, defaultDate, now, userId, intent);
      && acc.Some? && WellFormed(db1)
      && 1 <= acc.value.id <= |db1.accounts| && db1.accounts[acc.value.id - 1] == acc.value
      && (db', out) == StepCorrect(db1, acc.value, name, intent.amount, Some(defaultDate), now)
      && |db'.accounts| == |db1.accounts| && db'.accounts[acc.value.id - 1].balance == intent.amount
      && |db'.transactions| == |db.transactions| + 1 && db'.transactions[|db.transactions|].date == defaultDate
  {
    if !intent.account.Absent? {
      var name := Subscript(intent.account).value;
      FindOrCreateSpec(db, userId, name);
      var (db1, acc) := StepFindOrCreate(db, userId, name);
      CorrectionSpec(db1, acc.value, name, intent.amount, Some(defaultDate), now);
      assert StepAdjust(db, defaultDate, now, userId, intent) == StepCorrect(db1, acc.value, name, intent.amount, Some(defaultDate), now);
    }
  }

  /** The transfer's accounts: the one found for each name, or a new one
      with balance 0 when the lookup (made before any creation) found none. */
  lemma TransferAccountsSpec(db: Db, userId: nat, fromName: Option<string>, toName: Option<string>)
    requires WellFormed(db) && 1 <= userId <= |db.users|
    ensures
      var fromFound := FindAccount(db.accounts, userId, fromName);
      var toFound := FindAccount(db.accounts, userId, toName);
      var (db2, from, to) := StepTransferAccounts(db, userId, fromName, toName);
      && from.Some? && to.Some?
      && from.value.userId == userId && to.value.userId == userId
      && Placed(db2, from.value) && Placed(db2, to.value)
      && |db2.accounts| == |db.accounts| + (if fromFound.None? then 1 else 0) + (if toFound.None? then 1 else 0)
      && (fromFound.Some? ==> from == fromFound)
      && (fromFound.None? ==> from.value.id == |db.accounts| + 1 && from.value.name == fromName && from.value.balance == 0)
      && (toFound.Some? ==> to == toFound)
      && (toFound.None? ==> to.value.id == |db2.accounts| && to.value.name == toName && to.value.balance == 0)
  {
    var fromFound := FindAccount(db.accounts, userId, fromName);
    var toFound := FindAccount(db.accounts, userId, toName);
    FoundIsPlaced(db, userId, fromName);
    FoundIsPlaced(db, userId, toName);
    KeepOrCreateSpec(db, userId, fromFound, fromName);
    var (db1, from) := KeepOrCreate(db, userId, fromFound, fromName);
    assert toFound.Some? ==> Placed(db1, toFound.value);
    KeepOrCreateSpec(db1, userId, toFound, toName);
    var (db2, to) := KeepOrCreate(db1, userId, toFound, toName);
    assert Placed(db2, from.value);
    assert StepTransferAccounts(db, userId, fromName, toName) == (db2, from, to);
  }

  /** Finding or creating the transfer's accounts keeps the store well
      formed, writes only accounts and keeps every earlier account row. */
  lemma TransferAccountsFrame(db: Db, userId: nat, fromName: Option<string>, toName: Option<string>)
    requires WellFormed(db) && 1 <= userId <= |db.users|
    ensures
      var db2 := StepTransferAccounts(db, userId, fromName, toName).0;
      && WellFormed(db2) && db2.users == db.users && db2.transactions == db.transactions
      && |db.accounts| <= |db2.accounts|
      && (forall i :: 0 <= i < |db.accounts| ==> db2.accounts[i] == db.accounts[i])
  {
    var fromFound := FindAccount(db.accounts, userId, fromName);
    var toFound := FindAccount(db.accounts, userId, toName);
    FoundIsPlaced(db, userId, fromName);
    FoundIsPlaced(db, userId, toName);
    KeepOrCreateSpec(db, userId, fromFound, fromName);
    var (db1, from) := KeepOrCreate(db, userId, fromFound, fromName);
    assert toFound.Some? ==> Placed(db1, toFound.value);
    KeepOrCreateSpec(db1, userId, toFound, toName);
    var (db2, to) := KeepOrCreate(db1, userId, toFound, toName);
    assert StepTransferAccounts(db, userId, fromName, toName) == (db2, from, to);
  }

  /** The two legs of a transfer between existing accounts `f` and `t`: an
      expense then an income of the same amount and description. Distinct
      accounts move by -amount and +amount, so their combined balance is
      unchanged; one account paying itself keeps its balance; no other
      account changes. */
  lemma TransferLegsSpec(db: Db, f: nat, t: nat, amount: int, description: string, date: Option<Date>, now: Date,
                         fromName: Option<string>, toName: Option<string>)
    requires WellFormed(db) && 1 <= f <= |db.accounts| && 1 <= t <= |db.accounts|
    ensures
      var (db4, out) := StepTransferLegs(db, f, t, amount, description, date, now, fromName, toName);
      var n := |db.transactions|;
      && out == Replied(Transferred(amount, fromName, toName))
      && WellFormed(db4) && db4.users == db.users && |db4.accounts| == |db.accounts|
      && db4.transactions == db.transactions
           + [Transaction(n + 1, amount, description, "expense", StoredDate(date, now), None, f),
              Transaction(n + 2, amount, description, "income", StoredDate(date, now), None, t)]
      && (f != t ==>
            && db4.accounts[f - 1] == db.accounts[f - 1].(balance := db.accounts[f - 1].balance - amount)
            && db4.accounts[t - 1] == db.accounts[t - 1].(balance := db.accounts[t - 1].balance + amount)
            && db4.accounts[f - 1].balance + db4.accounts[t - 1].balance
               == db.accounts[f - 1].balance + db.accounts[t - 1].balance)
      && (f == t ==> db4.accounts[f - 1] == db.accounts[f - 1])
      && (forall i :: 0 <= i < |db.accounts| && i != f - 1 && i != t - 1 ==> db4.accounts[i] == db.accounts[i])
  {
    AddTransactionSpec(db, f, amount, description, "expense", date, now);
    AddTransactionKeepsInvariants(db, [], f, amount, description, "expense", date, now);
    var (db3, t1) := StepAddTransaction(db, f, amount, description, "expense", date, now);
    AddTransactionSpec(db3, t, amount, description, "income", date, now);
    AddTransactionKeepsInvariants(db3, [], t, amount, description, "income", date, now);
  }

  /** A transfer between the accounts named `fromName` and `toName` (the
      dispatch passes the intent's names, a missing one defaulting to "Cash"
      and a null one matching nothing). Both names are looked up before
      either account is created, so two equal names that are both absent
      create two accounts. The transfer never raises on a well-formed store:
      it is the two legs of `TransferLegsSpec` run on the accounts of
      `TransferAccountsSpec`, so the store gains an expense on the source and
      an income on the target, both of the amount, and the reply names the
      two accounts. */
  lemma TransferSpec(db: Db, defaultDate: Date, now: Date, userId: nat, fromName: Option<string>, toName: Option<string>,
                     amount: int, description: string)
    requires WellFormed(db) && 1 <= userId <= |db.users|
    ensures
      var fromFound := FindAccount(db.accounts, userId, fromName);
      var toFound := FindAccount(db.accounts, userId, toName);
      var (db2, from, to) := StepTransferAccounts(db, userId, fromName, toName);
      var (db', out) := StepTransfer(db, defaultDate, now, userId, fromName, toName, amount, description);
      var n := |db.transactions|;
      && from.Some? && to.Some?
      && from.value.userId == userId && to.value.userId == userId
      && out == Replied(Transferred(amount, fromName, toName))
      && WellFormed(db')
      && db'.users == db.users
      && |db'.accounts| == |db.accounts| + (if fromFound.None? then 1 else 0) + (if toFound.None? then 1 else 0)
      && db'.transactions == db.transactions
           + [Transaction(n + 1, amount, description, "expense", defaultDate, None, from.value.id),
              Transaction(n + 2, amount, description, "income", defaultDate, None, to.value.id)]
      && (db', out) == StepTransferLegs(db2, from.value.id, to.value.id, amount, description, Some(defaultDate), now, fromName, toName)
  {
    TransferAccountsSpec(db, userId, fromName, toName);
    TransferAccountsFrame(db, userId, fromName, toName);
    var (db2, from, to) := StepTransferAccounts(db, userId, fromName, toName);
    TransferLegsSpec(db2, from.value.id, to.value.id, amount, description, Some(defaultDate), now, fromName, toName);
  }

  /** Reading balances changes nothing and lists every account of the user,
      and only those, each with its current balance. */
  lemma BalanceReadSpec(db: Db, defaultDate: Date, now: Date, userId: nat, intent: Intent)
    requires IsBalanceRead(intent)
    ensures var (db', out) := StepDispatch(db, defaultDate, now, userId, intent);
      && db' == db && out.Replied? && out.reply.Balances?
      && (forall a :: a in db.accounts && a.userId == userId ==> (a.name, a.balance) in out.reply.lines)
      && (forall l :: l in out.reply.lines ==>
            exists a :: a in db.accounts && a.userId == userId && l == (a.name, a.balance))
  {
    var accs := AllBalances(db.accounts, userId);
    AllBalancesMembers(db.accounts, userId);
    var lines := Lines(accs);
    forall a | a in db.accounts && a.userId == userId
      ensures (a.name, a.balance) in lines
    {
      var i :| 0 <= i < |accs| && accs[i] == a;
      assert lines[i] == (a.name, a.balance);
    }
    forall l | l in lines
      ensures exists a :: a in db.accounts && a.userId == userId && l == (a.name, a.balance)
    {
      var i :| 0 <= i < |lines| && lines[i] == l;
      assert accs[i] in accs;
    }
  }

  /** Every intent outside the four branches (an income or expense to update
      or delete, a history request, an unknown kind) leaves the store as it
      is and gets the "couldn't understand" reply. */
  lemma UnhandledSpec(db: Db, defaultDate: Date, now: Date, userId: nat, intent: Intent)
    requires IsUnhandled(intent)
    ensures StepDispatch(db, defaultDate, now, userId, intent) == (db, Replied(NotUnderstood))
  {
  }

  /** Update and delete of incomes and expenses, history requests and unknown
      intents are among the unhandled ones. */
  lemma NotImplementedIntents(intent: Intent)
    ensures (intent.kind == Kind.Income || intent.kind == Kind.Expense) && intent.action != Create ==> IsUnhandled(intent)
    ensures intent.kind == TransactionHistory || intent.kind == Unknown ==> IsUnhandled(intent)
    ensures IsUnhandled(FallbackIntent())
  {
  }

  // ---------------------------------------------------------------------------
  // The handler against the store object

  /** The webhook's handler for one message, with `now` the database clock
      while it runs. Besides performing `StepHandle`, it keeps every
      account's balance equal to its creation value plus its transactions'
      net: earlier creation values are kept and every account it creates
      opens at 0. */
  method HandleMessage(ledger: Ledger, now: Date, telegramId: string, name: string, intent: Intent)
    returns (outcome: Outcome)
    requires ledger.Valid()
    modifies ledger
    ensures ledger.Valid() && OpenedAtZero(old(ledger.openings), ledger.openings)
    ensures (ledger.Snapshot(), outcome) == StepHandle(old(ledger.Snapshot()), ledger.defaultDate, now, telegramId, name, intent)
  {
    var user := FindUser(ledger.users, telegramId);
    if user.None? {
      user := ledger.CreateUser(telegramId, name);
      if user.None? {
        return Raised;
      }
    }
    var userId := user.value.id;
    if IsRecord(intent) {
      outcome := Record(ledger, now, userId, intent);
    } else if IsBalanceRead(intent) {
      var accounts := AllBalances(ledger.accounts, userId);
      outcome := Replied(Balances(Lines(accounts)));
    } else if intent.kind == BalanceAdjustment {
      outcome := AdjustBalance(ledger, now, userId, intent);
    } else if intent.kind == Transfer {
      var fromName := GetOr(intent.fromAccount, DefaultAccount);
      var toName := GetOr(intent.account, DefaultAccount);
      outcome := TransferFunds(ledger, now, userId, fromName, toName, intent.amount, intent.description);
    } else {
      outcome := Replied(NotUnderstood);
    }
  }

  /** Looks the named account up and creates it at 0 when absent. */
  method FindOrCreate(ledger: Ledger, userId: nat, accName: Option<string>) returns (acc: Option<Account>)
    requires ledger.Valid()
    modifies ledger
    ensures ledger.Valid() && OpenedAtZero(old(ledger.openings), ledger.openings)
    ensures (ledger.Snapshot(), acc) == StepFindOrCreate(old(ledger.Snapshot()), userId, accName)
  {
    acc := FindAccount(ledger.accounts, userId, accName);
    if acc.None? {
      acc := ledger.CreateAccount(userId, accName, 0);
    }
  }

  method Record(ledger: Ledger, now: Date, userId: nat, intent: Intent) returns (outcome: Outcome)
    requires ledger.Valid()
    modifies ledger
    ensures ledger.Valid() && OpenedAtZero(old(ledger.openings), ledger.openings)
    ensures (ledger.Snapshot(), outcome) == StepRecord(old(ledger.Snapshot()), now, userId, intent)
  {
    if intent.account.Absent? {
      return Raised;
    }
    var accName := Subscript(intent.account).value;
    var acc := FindOrCreate(ledger, userId, accName);
    if acc.None? {
      return Raised;
    }
    var tt := RecordType(intent.kind);
    var txn := ledger.AddTransaction(acc.value.id, intent.amount, intent.description, TypeName(tt), intent.date, now);
    if txn.None? {
      return Raised;
    }
    outcome := Replied(Recorded(tt, intent.amount, accName, DescriptionLine(intent.description), intent.date));
  }

  method AdjustBalance(ledger: Ledger, now: Date, userId: nat, intent: Intent) returns (outcome: Outcome)
    requires ledger.Valid()
    modifies ledger
    ensures ledger.Valid() && OpenedAtZero(old(ledger.openings), ledger.openings)
    ensures (ledger.Snapshot(), outcome) == StepAdjust(old(ledger.Snapshot()), ledger.defaultDate, now, userId, intent)
  {
    if intent.account.Absent? {
      return Raised;
    }
    var accName := Subscript(intent.account).value;
    var acc := FindOrCreate(ledger, userId, accName);
    if acc.None? {
      return Raised;
    }
    var diff := intent.amount - acc.value.balance;
    var txnType := CorrectionType(diff);
    var txn := ledger.AddTransaction(acc.value.id, Abs(diff), CorrectionDescription, TypeName(txnType),
                                     Some(ledger.defaultDate), now);
    if txn.None? {
      return Raised;
    }
    outcome := Replied(Adjusted(accName, intent.amount, txnType, Abs(diff)));
  }

  /** The transfer's two accounts: both looked up first, then each one not
      found created at 0, the source before the target. */
  method TransferAccounts(ledger: Ledger, userId: nat, fromName: Option<string>, toName: Option<string>)
    returns (fromAcc: Option<Account>, toAcc: Option<Account>)
    requires ledger.Valid()
    modifies ledger
    ensures ledger.Valid() && OpenedAtZero(old(ledger.openings), ledger.openings)
    ensures (ledger.Snapshot(), fromAcc, toAcc) == StepTransferAccounts(old(ledger.Snapshot()), userId, fromName, toName)
  {
    ghost var o0 := ledger.openings;
    fromAcc := FindAccount(ledger.accounts, userId, fromName);
    toAcc := FindAccount(ledger.accounts, userId, toName);
    if fromAcc.None? {
      fromAcc := ledger.CreateAccount(userId, fromName, 0);
      if fromAcc.None? {
        return None, None;
      }
    }
    ghost var o1 := ledger.openings;
    if toAcc.None? {
      toAcc := ledger.CreateAccount(userId, toName, 0);
    }
    assert OpenedAtZero(o0, ledger.openings) by {
      assert o1[..|o0|] == o0;
      assert ledger.openings[..|o1|] == o1;
    }
  }

  method TransferFunds(ledger: Ledger, now: Date, userId: nat, fromName: Option<string>, toName: Option<string>,
                       amount: int, description: string) returns (outcome: Outcome)
    requires ledger.Valid()
    modifies ledger
    ensures ledger.Valid() && OpenedAtZero(old(ledger.openings), ledger.openings)
    ensures (ledger.Snapshot(), outcome)
      == StepTransfer(old(ledger.Snapshot()), ledger.defaultDate, now, userId, fromName, toName, amount, description)
  {
    var fromAcc, toAcc := TransferAccounts(ledger, userId, fromName, toName);
    if fromAcc.None? || toAcc.None? {
      return Raised;
    }
    ghost var db2 := ledger.Snapshot();
    var debit := ledger.AddTransaction(fromAcc.value.id, amount, description, "expense", Some(ledger.defaultDate), now);
    if debit.None? {
      return Raised;
    }
    var credit := ledger.AddTransaction(toAcc.value.id, amount, description, "income", Some(ledger.defaultDate), now);
    if credit.None? {
      return Raised;
    }
    assert (ledger.Snapshot(), Replied(Transferred(amount, fromName, toName)))
      == StepTransferLegs(db2, fromAcc.value.id, toAcc.value.id, amount, description, Some(ledger.defaultDate), now,
                          fromName, toName);
    outcome := Replied(Transferred(amount, fromName, toName));
  }
}
