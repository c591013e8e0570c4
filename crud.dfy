/** The ledger store: create and look up users and accounts, and insert
    transactions while keeping each account's cached balance.

    The store is given twice. `Db` is the database as a value and the `Step…`
    functions are the state transitions of the create/insert operations; the
    lemmas below state what each transition does. `Ledger` is the store as
    the handlers use it, an object whose three tables are sequences that its
    methods extend and update in place; each method is proved to perform
    exactly the corresponding transition. */
module Crud {
  import opened Models
  import opened Strings

  /** The three tables, each in insertion (primary key) order. */
  datatype Db = Db(users: seq<User>, accounts: seq<Account>, transactions: seq<Transaction>)

  /** Primary keys are assigned 1, 2, 3, … in insertion order. */
  predicate KeysAreSerial(db: Db) {
    && (forall i :: 0 <= i < |db.users| ==> db.users[i].id == i + 1)
    && (forall i :: 0 <= i < |db.accounts| ==> db.accounts[i].id == i + 1)
    && (forall i :: 0 <= i < |db.transactions| ==> db.transactions[i].id == i + 1)
  }

  /** The constraints of the schema, and what the insert paths never set. */
  predicate WellFormed(db: Db) {
    && KeysAreSerial(db)
    // telegram_id is unique
    && (forall i, j :: 0 <= i < j < |db.users| ==> db.users[i].telegramId != db.users[j].telegramId)
    // accounts.user_id references users.id
    && (forall i :: 0 <= i < |db.accounts| ==> 1 <= db.accounts[i].userId <= |db.users|)
    // create_account never sets initial_balance, so it keeps the column default
    && (forall i :: 0 <= i < |db.accounts| ==> db.accounts[i].initialBalance == ColumnDefault)
    // transactions.account_id references accounts.id
    && (forall i :: 0 <= i < |db.transactions| ==> 1 <= db.transactions[i].accountId <= |db.accounts|)
    // add_transaction never sets transactions.user_id
    && (forall i :: 0 <= i < |db.transactions| ==> db.transactions[i].userId == None)
  }

  // ---------------------------------------------------------------------------
  // Queries

  /** get_user: the first user whose telegram id equals `telegramId`. */
  function FindUser(users: seq<User>, telegramId: string): (r: Option<User>)
    ensures r.Some? ==> r.value in users && r.value.telegramId == telegramId
    ensures r.None? <==> forall u :: u in users ==> u.telegramId != telegramId
  {
    if users == [] then None
    else if users[0].telegramId == telegramId then Some(users[0])
    else FindUser(users[1..], telegramId)
  }

  /** Whether a stored account name matches a queried one, ignoring case. A
      NULL on either side never matches, as in SQL. */
  predicate NameMatches(stored: Option<string>, query: Option<string>) {
    stored.Some? && query.Some? && Lower(stored.value) == Lower(query.value)
  }

  predicate IsNamedAccount(a: Account, userId: nat, name: Option<string>) {
    a.userId == userId && NameMatches(a.name, name)
  }

  /** get_account_by_name: the first account of `userId` whose name matches
      `name` case-insensitively, if there is one. */
  function FindAccount(accounts: seq<Account>, userId: nat, name: Option<string>): (r: Option<Account>)
  {
    if accounts == [] then None
    else if IsNamedAccount(accounts[0], userId, name) then Some(accounts[0])
    else FindAccount(accounts[1..], userId, name)
  }

  /** get_account_by_name finds a stored account of `userId` whose name
      matches, and finds none exactly when no stored account matches. */
  lemma {:induction false} FindAccountSpec(accounts: seq<Account>, userId: nat, name: Option<string>)
    ensures var r := FindAccount(accounts, userId, name);
      && (r.Some? ==> r.value in accounts && r.value.userId == userId && NameMatches(r.value.name, name))
      && (r.None? <==> forall a :: a in accounts ==> !IsNamedAccount(a, userId, name))
  {
    if accounts != [] && !IsNamedAccount(accounts[0], userId, name) {
      FindAccountSpec(accounts[1..], userId, name);
      assert accounts == [accounts[0]] + accounts[1..];
    }
  }

  /** get_all_balances: the accounts of `userId`, in store order. */
  function AllBalances(accounts: seq<Account>, userId: nat): (r: seq<Account>)
    ensures |r| <= |accounts|
  {
    if accounts == [] then []
    else
      var last := accounts[|accounts| - 1];
      AllBalances(accounts[..|accounts| - 1], userId) + (if last.userId == userId then [last] else [])
  }

  /** get_all_balances returns exactly the accounts whose owner is `userId`. */
  lemma {:induction false} AllBalancesMembers(accounts: seq<Account>, userId: nat)
    ensures forall a :: a in AllBalances(accounts, userId) <==> a in accounts && a.userId == userId
  {
    if accounts != [] {
      var init := accounts[..|accounts| - 1];
      AllBalancesMembers(init, userId);
      assert accounts == init + [accounts[|accounts| - 1]];
    }
  }

  /** The position of the account with primary key `id` (the by-id query of
      add_transaction). */
  function AccountIndex(accounts: seq<Account>, id: nat): (r: Option<nat>)
    ensures r.Some? ==> r.value < |accounts| && accounts[r.value].id == id
    ensures r.None? <==> forall j :: 0 <= j < |accounts| ==> accounts[j].id != id
  {
    if accounts == [] then None
    else if accounts[0].id == id then Some(0)
    else match AccountIndex(accounts[1..], id)
      case None => None
      case Some(k) => Some(k + 1)
  }

  predicate HasUser(users: seq<User>, id: nat) {
    exists i :: 0 <= i < |users| && users[i].id == id
  }

  // ---------------------------------------------------------------------------
  // Transitions. A `None` result is an insert the database refuses (a unique
  // or foreign-key violation, or the missing account that add_transaction
  // dereferences): the commit never happens and the tables are unchanged.

  /** create_user. */
  function StepCreateUser(db: Db, telegramId: string, name: string): (Db, Option<User>) {
    if FindUser(db.users, telegramId).Some? then (db, None)
    else
      var u := User(|db.users| + 1, telegramId, name);
      (db.(users := db.users + [u]), Some(u))
  }

  /** create_account: the given value goes to `balance`; `initial_balance` is
      left to its column default. */
  function StepCreateAccount(db: Db, userId: nat, name: Option<string>, initialBalance: int): (Db, Option<Account>) {
    if !HasUser(db.users, userId) then (db, None)
    else
      var a := Account(|db.accounts| + 1, name, ColumnDefault, initialBalance, userId);
      (db.(accounts := db.accounts + [a]), Some(a))
  }

  /** How a transaction of the given type moves its account's balance. */
  function Effect(txnType: string, amount: int): int {
    if txnType == "expense" then -amount
    else if txnType == "income" then amount
    else 0
  }

  /** An expense lowers the balance by exactly its amount, an income raises
      it by exactly its amount, and any other type leaves it. */
  lemma EffectByType(txnType: string, amount: int)
    ensures txnType == TypeName(Expense) ==> Effect(txnType, amount) == -amount
    ensures txnType == TypeName(Income) ==> Effect(txnType, amount) == amount
    ensures TypeOf(txnType).None? ==> Effect(txnType, amount) == 0
  {
  }

  /** The date a new row is stored with. A `None` argument is left out of the
      INSERT (the ORM omits a None-valued attribute whose column has a
      default), so the server default `now()` dates the row. */
  function StoredDate(date: Option<Date>, now: Date): Date {
    match date
    case Some(given) => given
    case None => now
  }

  /** add_transaction: insert the row, then move the owning account's
      balance. `now` is the database clock when the insert commits. */
  function StepAddTransaction(db: Db, accountId: nat, amount: int, description: string, txnType: string,
                              date: Option<Date>, now: Date)
    : (Db, Option<Transaction>)
  {
    match AccountIndex(db.accounts, accountId)
    case None => (db, None)
    case Some(k) =>
      var t := Transaction(|db.transactions| + 1, amount, description, txnType, StoredDate(date, now), None, accountId);
      var a := db.accounts[k];
      (Db(db.users, db.accounts[k := a.(balance := a.balance + Effect(txnType, amount))], db.transactions + [t]), Some(t))
  }

  // ---------------------------------------------------------------------------
  // The balance invariant

  /** The signed sum of the transactions of account `accountId`. */
  function Net(ts: seq<Transaction>, accountId: nat): int {
    if ts == [] then 0
    else
      var t := ts[|ts| - 1];
      Net(ts[..|ts| - 1], accountId) + (if t.accountId == accountId then Effect(t.txnType, t.amount) else 0)
  }

  /** Every account's balance is the value it was created with plus the
      signed sum of its transactions. `openings` lists the creation values in
      account order; the schema keeps no copy of them. */
  ghost predicate BalanceInvariant(db: Db, openings: seq<int>) {
    && |openings| == |db.accounts|
    && forall i :: 0 <= i < |db.accounts| ==>
         db.accounts[i].balance == openings[i] + Net(db.transactions, db.accounts[i].id)
  }

  lemma NetAppend(ts: seq<Transaction>, t: Transaction, accountId: nat)
    ensures Net(ts + [t], accountId)
         == Net(ts, accountId) + (if t.accountId == accountId then Effect(t.txnType, t.amount) else 0)
  {
    assert (ts + [t])[..|ts|] == ts;
  }

  lemma {:induction false} NetOfUnreferenced(ts: seq<Transaction>, accountId: nat)
    requires forall i :: 0 <= i < |ts| ==> ts[i].accountId != accountId
    ensures Net(ts, accountId) == 0
  {
    if ts != [] {
      NetOfUnreferenced(ts[..|ts| - 1], accountId);
    }
  }

  /** The creation values after `before` end with only accounts opened at 0:
      the earlier values are kept and every added one is 0. */
  ghost predicate OpenedAtZero(before: seq<int>, after: seq<int>) {
    && |before| <= |after|
    && after[..|before|] == before
    && forall i :: |before| <= i < |after| ==> after[i] == 0
  }

  /** The empty database satisfies every invariant. */
  lemma EmptyIsValid()
    ensures WellFormed(Db([], [], [])) && BalanceInvariant(Db([], [], []), [])
  {
  }

  /** Under the schema's uniqueness, get_user finds every stored user by its
      telegram id. */
  lemma {:induction false} FindUserFindsStored(users: seq<User>, i: nat)
    requires i < |users|
    requires forall j, k :: 0 <= j < k < |users| ==> users[j].telegramId != users[k].telegramId
    ensures FindUser(users, users[i].telegramId) == Some(users[i])
  {
    if i > 0 {
      assert users[0].telegramId != users[i].telegramId;
      FindUserFindsStored(users[1..], i - 1);
    }
  }

  /** create_user inserts exactly one user precisely when the telegram id is
      new, and otherwise changes nothing; it keeps every invariant. */
  lemma CreateUserSpec(db: Db, openings: seq<int>, telegramId: string, name: string)
    requires WellFormed(db)
    ensures var (db', u) := StepCreateUser(db, telegramId, name);
      && (u.Some? <==> FindUser(db.users, telegramId).None?)
      && (u.Some? ==> u.value == User(|db.users| + 1, telegramId, name)
                      && db'.users == db.users + [u.value])
      && (u.None? ==> db' == db)
      && db'.accounts == db.accounts && db'.transactions == db.transactions
      && WellFormed(db')
      && (BalanceInvariant(db, openings) ==> BalanceInvariant(db', openings))
  {
  }

  /** create_account inserts an account owned by `userId` with the given name
      and balance, precisely when that user exists; it keeps every invariant,
      the new account starting from its creation value. */
  lemma CreateAccountSpec(db: Db, openings: seq<int>, userId: nat, name: Option<string>, initialBalance: int)
    requires WellFormed(db)
    ensures var (db', a) := StepCreateAccount(db, userId, name, initialBalance);
      && (a.Some? <==> 1 <= userId <= |db.users|)
      && (a.Some? ==> a.value == Account(|db.accounts| + 1, name, ColumnDefault, initialBalance, userId)
                      && db'.accounts == db.accounts + [a.value])
      && (a.None? ==> db' == db)
      && db'.users == db.users && db'.transactions == db.transactions
      && WellFormed(db')
      && (BalanceInvariant(db, openings) && a.Some? ==> BalanceInvariant(db', openings + [initialBalance]))
  {
    if 1 <= userId <= |db.users| {
      assert db.users[userId - 1].id == userId;
    }
    var (db', a) := StepCreateAccount(db, userId, name, initialBalance);
    if a.Some? && BalanceInvariant(db, openings) {
      NetOfUnreferenced(db.transactions, |db.accounts| + 1);
    }
  }

  /** add_transaction, when the account exists: the row is appended with
      exactly the given fields, dated with the given date or, when none is
      given, with the database clock; that account's balance moves by the type's
      `Effect` (see `EffectByType`) and none of its other fields changes;
      every other account and every earlier transaction is untouched. When
      the account does not exist nothing changes. */
  lemma AddTransactionSpec(db: Db, accountId: nat, amount: int, description: string,
                           txnType: string, date: Option<Date>, now: Date)
    requires WellFormed(db)
    ensures var (db', t) := StepAddTransaction(db, accountId, amount, description, txnType, date, now);
      && (t.Some? <==> 1 <= accountId <= |db.accounts|)
      && (t.None? ==> db' == db)
      && (t.Some? ==>
            && t.value == Transaction(|db.transactions| + 1, amount, description, txnType, StoredDate(date, now), None, accountId)
            && (date.Some? ==> t.value.date == date.value)
            && (date.None? ==> t.value.date == now)
            && db'.transactions == db.transactions + [t.value]
            && db'.users == db.users
            && |db'.accounts| == |db.accounts|
            && (forall i :: 0 <= i < |db.accounts| && i != accountId - 1 ==> db'.accounts[i] == db.accounts[i])
            && db'.accounts[accountId - 1] == db.accounts[accountId - 1].(balance := db'.accounts[accountId - 1].balance)
            && db'.accounts[accountId - 1].balance == db.accounts[accountId - 1].balance + Effect(txnType, amount))
  {
    if 1 <= accountId <= |db.accounts| {
      assert db.accounts[accountId - 1].id == accountId;
      var k := AccountIndex(db.accounts, accountId).value;
      assert k == accountId - 1 by {
        assert db.accounts[k].id == k + 1;
      }
    }
  }

  /** add_transaction keeps the schema's constraints and the balance invariant. */
  lemma AddTransactionKeepsInvariants(db: Db, openings: seq<int>, accountId: nat, amount: int, description: string,
                                      txnType: string, date: Option<Date>, now: Date)
    requires WellFormed(db)
    ensures var db' := StepAddTransaction(db, accountId, amount, description, txnType, date, now).0;
      && WellFormed(db')
      && (BalanceInvariant(db, openings) ==> BalanceInvariant(db', openings))
  {
    AddTransactionSpec(db, accountId, amount, description, txnType, date, now);
    var (db', t) := StepAddTransaction(db, accountId, amount, description, txnType, date, now);
    if t.Some? {
      if BalanceInvariant(db, openings) {
        forall i | 0 <= i < |db'.accounts|
          ensures db'.accounts[i].balance == openings[i] + Net(db'.transactions, db'.accounts[i].id)
        {
          NetAppend(db.transactions, t.value, db.accounts[i].id);
        }
      }
    }
  }

  /** Account rows created in order, all owned by `userId`. */
  function CreateAll(db: Db, userId: nat, pending: seq<(Option<string>, int)>): Db
  {
    if pending == [] then db
    else
      var (name, balance) := pending[|pending| - 1];
      StepCreateAccount(CreateAll(db, userId, pending[..|pending| - 1]), userId, name, balance).0
  }

  /** Creating accounts one after another for an existing user appends them,
      in order, with the given names and balances. */
  lemma {:induction false} CreateAllSpec(db: Db, userId: nat, pending: seq<(Option<string>, int)>)
    requires WellFormed(db)
    requires 1 <= userId <= |db.users|
    ensures var db' := CreateAll(db, userId, pending);
      && WellFormed(db')
      && db'.users == db.users && db'.transactions == db.transactions
      && |db'.accounts| == |db.accounts| + |pending|
      && db'.accounts[..|db.accounts|] == db.accounts
      && forall i :: 0 <= i < |pending| ==>
           db'.accounts[|db.accounts| + i]
             == Account(|db.accounts| + i + 1, pending[i].0, ColumnDefault, pending[i].1, userId)
  {
    if pending != [] {
      var init := pending[..|pending| - 1];
      CreateAllSpec(db, userId, init);
      var mid := CreateAll(db, userId, init);
      var (name, balance) := pending[|pending| - 1];
      CreateAccountSpec(mid, [], userId, name, balance);
      var db' := CreateAll(db, userId, pending);
      assert db'.accounts == mid.accounts + [Account(|mid.accounts| + 1, name, ColumnDefault, balance, userId)];
      forall i | 0 <= i < |pending|
        ensures db'.accounts[|db.accounts| + i]
             == Account(|db.accounts| + i + 1, pending[i].0, ColumnDefault, pending[i].1, userId)
      {
        if i < |init| {
          assert pending[i] == init[i];
        }
      }
    }
  }

  /** get_all_balances over two runs of rows is the query over each, in order. */
  lemma {:induction false} AllBalancesAppend(a: seq<Account>, b: seq<Account>, userId: nat)
    ensures AllBalances(a + b, userId) == AllBalances(a, userId) + AllBalances(b, userId)
    decreases |b|
  {
    if b == [] {
      assert a + b == a;
    } else {
      var init := b[..|b| - 1];
      AllBalancesAppend(a, init, userId);
      assert (a + b)[..|a + b| - 1] == a + init;
      assert (a + b)[|a + b| - 1] == b[|b| - 1];
    }
  }

  /** The accounts of a user, when every row is theirs, are all the rows in
      order; when no row is theirs, none. */
  lemma {:induction false} AllBalancesUniform(accounts: seq<Account>, userId: nat)
    ensures (forall i :: 0 <= i < |accounts| ==> accounts[i].userId == userId) ==> AllBalances(accounts, userId) == accounts
    ensures (forall i :: 0 <= i < |accounts| ==> accounts[i].userId != userId) ==> AllBalances(accounts, userId) == []
  {
    if accounts != [] {
      AllBalancesUniform(accounts[..|accounts| - 1], userId);
      assert accounts[..|accounts| - 1] + [accounts[|accounts| - 1]] == accounts;
    }
  }

  /** Rows of another owner followed by rows of `userId`: the user's
      accounts are exactly the latter, in order. */
  lemma AllBalancesOfNewOwner(before: seq<Account>, added: seq<Account>, userId: nat)
    requires forall i :: 0 <= i < |before| ==> before[i].userId != userId
    requires forall i :: 0 <= i < |added| ==> added[i].userId == userId
    ensures AllBalances(before + added, userId) == added
  {
    AllBalancesAppend(before, added, userId);
    AllBalancesUniform(before, userId);
    AllBalancesUniform(added, userId);
  }

  // ---------------------------------------------------------------------------
  // The store as an object

  class Ledger {
    var users: seq<User>
    var accounts: seq<Account>
    var transactions: seq<Transaction>
    /** The value each account was created with, in account order. */
    ghost var openings: seq<int>
    /** The default of add_transaction's `date` parameter, computed once when
        the module is loaded. */
    const defaultDate: Date

    function Snapshot(): Db
      reads this
    {
      Db(users, accounts, transactions)
    }

    ghost predicate Valid()
      reads this
    {
      WellFormed(Snapshot()) && BalanceInvariant(Snapshot(), openings)
    }

    constructor (loadedAt: Date)
      ensures Valid()
      ensures Snapshot() == Db([], [], []) && defaultDate == loadedAt
    {
      users, accounts, transactions := [], [], [];
      openings := [];
      defaultDate := loadedAt;
    }

    method CreateUser(telegramId: string, name: string) returns (user: Option<User>)
      requires Valid()
      modifies this
      ensures Valid() && openings == old(openings)
      ensures (Snapshot(), user) == StepCreateUser(old(Snapshot()), telegramId, name)
    {
      CreateUserSpec(Snapshot(), openings, telegramId, name);
      if FindUser(users, telegramId).Some? {
        return None;
      }
      var u := User(|users| + 1, telegramId, name);
      users := users + [u];
      user := Some(u);
    }

    method CreateAccount(userId: nat, name: Option<string>, initialBalance: int) returns (account: Option<Account>)
      requires Valid()
      modifies this
      ensures Valid()
      ensures (Snapshot(), account) == StepCreateAccount(old(Snapshot()), userId, name, initialBalance)
      ensures openings == if account.Some? then old(openings) + [initialBalance] else old(openings)
    {
      CreateAccountSpec(Snapshot(), openings, userId, name, initialBalance);
      if !HasUser(users, userId) {
        return None;
      }
      var a := Account(|accounts| + 1, name, ColumnDefault, initialBalance, userId);
      accounts := accounts + [a];
      openings := openings + [initialBalance];
      account := Some(a);
    }

    /** add_transaction; `now` is the database clock, which dates the row
        when `date` is `None`. */
    method AddTransaction(accountId: nat, amount: int, description: string, txnType: string, date: Option<Date>,
                          now: Date)
      returns (txn: Option<Transaction>)
      requires Valid()
      modifies this
      ensures Valid() && openings == old(openings)
      ensures (Snapshot(), txn) == StepAddTransaction(old(Snapshot()), accountId, amount, description, txnType, date, now)
    {
      ghost var before := Snapshot();
      AddTransactionKeepsInvariants(before, openings, accountId, amount, description, txnType, date, now);
      var k := AccountIndex(accounts, accountId);
      if k.None? {
        return None;
      }
      var stored := if date.Some? then date.value else now;
      var t := Transaction(|transactions| + 1, amount, description, txnType, stored, None, accountId);
      var a := accounts[k.value];
      var updated := accounts;
      if txnType == "expense" {
        updated := accounts[k.value := a.(balance := a.balance - amount)];
      } else if txnType == "income" {
        updated := accounts[k.value := a.(balance := a.balance + amount)];
      }
      assert updated == accounts[k.value := a.(balance := a.balance + Effect(txnType, amount))];
      ghost var after := Db(users, updated, transactions + [t]);
      assert StepAddTransaction(before, accountId, amount, description, txnType, date, now) == (after, Some(t));
      transactions := transactions + [t];
      accounts := updated;
      assert Snapshot() == after;
      txn := Some(t);
    }
  }
}
