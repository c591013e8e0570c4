/** The onboarding conversation: a state machine that asks for the user's
    name, then for one account name and opening balance after another, and
    finally writes the user and the collected accounts to the ledger.

    `Session` is the conversation's state together with the per-user
    scratch data the handlers keep between messages; each handler is a
    `Step…` function of it (and of the store where the handler reads or
    writes it), `StepReceive` is the conversation handler that routes one
    update to the handler of the current state, and `Conversation` is the
    same machine as an object whose methods are proved to perform those
    steps. */
module Setup {
  import opened Models
  import opened Strings
  import opened Crud

  /** `Ended` is the framework's END marker: no conversation is active. */
  datatype State = Ended | AskName | AskAccountName | AskInitialBalance | AskAddAnother

  /** An account collected but not yet written: its name and opening balance. */
  type Pending = (Option<string>, int)

  /** The conversation state and the scratch keys kept between messages;
      `None` is a key not (yet) set. */
  datatype Session = Session(
    state: State,
    telegramId: Option<string>,
    name: Option<string>,
    accounts: Option<seq<Pending>>,
    current: Option<string>)

  /** What arrives from the chat: plain text, or a command such as /start. */
  datatype Update = Text(text: string) | Command(command: string)

  /** The registered callbacks, and `NoHandler` for an update no callback
      accepts in the current state. */
  datatype Handler = OnStart | OnName | OnAccountName | OnBalance | OnAddAnother | OnCancel | NoHandler

  /** The message sent back, before it is rendered as text. */
  datatype SetupReply =
    | WelcomeBack(user: string)
    | AskForName
    | AskFirstAccount
    | AskBalance(account: string)
    | InvalidNumber
    | AskAnother
    | AskNextAccount
    | SetupComplete(user: string)
    | Cancelled

  /** What a callback does: reply and name the next state, or raise (a
      missing scratch key, or an insert the store refuses); after a raise
      the conversation stays in its state. */
  datatype Result = Next(state: State, reply: SetupReply) | Failed

  const StartCommand: string := "start"
  const CancelCommand: string := "cancel"

  /** The keys each state relies on have been set by the handlers that lead
      to it. */
  predicate Consistent(s: Session) {
    match s.state
    case Ended => true
    case AskName => s.telegramId.Some?
    case AskAccountName => s.telegramId.Some? && s.name.Some? && s.accounts.Some?
    case AskInitialBalance => s.telegramId.Some? && s.name.Some? && s.accounts.Some? && s.current.Some?
    case AskAddAnother => s.telegramId.Some? && s.name.Some? && s.accounts.Some? && s.current.Some?
  }

  // ---------------------------------------------------------------------------
  // The state table

  /** The conversation handler's table: /start enters when no conversation
      is active, each active state has exactly one text callback, and
      /cancel is the fallback in every active state. Commands never reach
      a text callback. */
  function Route(state: State, u: Update): (h: Handler)
    ensures h == OnStart <==> state == Ended && u == Command(StartCommand)
    ensures h == OnCancel <==> state != Ended && u == Command(CancelCommand)
    ensures h == OnName <==> state == AskName && u.Text?
    ensures h == OnAccountName <==> state == AskAccountName && u.Text?
    ensures h == OnBalance <==> state == AskInitialBalance && u.Text?
    ensures h == OnAddAnother <==> state == AskAddAnother && u.Text?
  {
    match u
    case Command(c) =>
      if state == Ended then (if c == StartCommand then OnStart else NoHandler)
      else if c == CancelCommand then OnCancel
      else NoHandler
    case Text(_) =>
      match state
      case Ended => NoHandler
      case AskName => OnName
      case AskAccountName => OnAccountName
      case AskInitialBalance => OnBalance
      case AskAddAnother => OnAddAnother
  }

  // ---------------------------------------------------------------------------
  // The callbacks as functions of the session

  /** start: remember the sender; a known user is welcomed back and the
      conversation ends, an unknown one is asked for a name. */
  function StepStart(s: Session, db: Db, telegramId: string): (Session, Result) {
    var s' := s.(telegramId := Some(telegramId));
    match FindUser(db.users, telegramId)
    case Some(u) => (s', Next(Ended, WelcomeBack(u.name)))
    case None => (s', Next(AskName, AskForName))
  }

  /** ask_account_name: keep the trimmed name and start an empty account list. */
  function StepAskAccountName(s: Session, text: string): (Session, Result) {
    (s.(name := Some(Strip(text)), accounts := Some([])), Next(AskAccountName, AskFirstAccount))
  }

  /** ask_initial_balance: keep the trimmed account name. */
  function StepAskInitialBalance(s: Session, text: string): (Session, Result) {
    var n := Strip(text);
    (s.(current := Some(n)), Next(AskInitialBalance, AskBalance(n)))
  }

  /** save_account_and_ask_more: `parse` is the reading of a number from
      text; an unreadable one asks again, a readable one is appended with
      the account name kept by the previous step. */
  function StepSave(s: Session, text: string, parse: string -> Option<int>): (Session, Result) {
    match parse(Strip(text))
    case None => (s, Next(AskInitialBalance, InvalidNumber))
    case Some(balance) =>
      if s.accounts.None? || s.current.None? then (s, Failed)
      else (s.(accounts := Some(s.accounts.value + [(Some(s.current.value), balance)])), Next(AskAddAnother, AskAnother))
  }

  /** The answers that ask for another account. */
  predicate WantsAnother(text: string) {
    var answer := Lower(Strip(text));
    answer == "yes" || answer == "y"
  }

  /** ask_next_or_finish: "yes" or "y" asks for the next account; any other
      answer writes the user and then each collected account, and ends. The
      scratch data is not changed. */
  function FinishResult(s: Session, db: Db, text: string): Result {
    if WantsAnother(text) then Next(AskAccountName, AskNextAccount)
    else if s.telegramId.None? || s.name.None? then Failed
    else if StepCreateUser(db, s.telegramId.value, s.name.value).1.None? then Failed
    else if s.accounts.None? then Failed
    else Next(Ended, SetupComplete(s.name.value))
  }

  /** The store after ask_next_or_finish: the user's insert is committed
      before the account list is read, so a missing list raises after the
      user exists; otherwise the accounts follow in the order collected. */
  function FinishWrites(s: Session, db: Db, text: string): Db {
    if WantsAnother(text) || s.telegramId.None? || s.name.None? then db
    else
      var (db1, user) := StepCreateUser(db, s.telegramId.value, s.name.value);
      if user.None? || s.accounts.None? then db1
      else CreateAll(db1, user.value.id, s.accounts.value)
  }

  /** The opening balances of the collected accounts, in order. */
  function Openings(pending: seq<Pending>): (r: seq<int>)
    ensures |r| == |pending| && forall i :: 0 <= i < |pending| ==> r[i] == pending[i].1
  {
    if pending == [] then [] else Openings(pending[..|pending| - 1]) + [pending[|pending| - 1].1]
  }

  /** The creation values of the accounts the final answer writes: the
      collected balances when setup completes, and none otherwise. */
  function FinishOpenings(s: Session, db: Db, text: string): seq<int> {
    if !WantsAnother(text) && FinishResult(s, db, text).Next? then Openings(s.accounts.value) else []
  }

  /** The conversation handler: run the callback the table selects for the
      update, and move to the state it names unless it raised. `None` is an
      update the conversation does not handle. */
  function StepReceive(s: Session, db: Db, sender: string, u: Update, parse: string -> Option<int>)
    : (Session, Option<Result>)
  {
    var (s', r) :=
      match Route(s.state, u)
      case NoHandler => (s, None)
      case OnStart => var (s1, r1) := StepStart(s, db, sender); (s1, Some(r1))
      case OnName => var (s1, r1) := StepAskAccountName(s, u.text); (s1, Some(r1))
      case OnAccountName => var (s1, r1) := StepAskInitialBalance(s, u.text); (s1, Some(r1))
      case OnBalance => var (s1, r1) := StepSave(s, u.text, parse); (s1, Some(r1))
      case OnAddAnother => (s, Some(FinishResult(s, db, u.text)))
      case OnCancel => (s, Some(Next(Ended, Cancelled)));
    if r.Some? && r.value.Next? then (s'.(state := r.value.state), r) else (s', r)
  }

  /** The store after one update: only the final answer writes. */
  function ReceiveWrites(s: Session, db: Db, u: Update): Db {
    if Route(s.state, u) == OnAddAnother then FinishWrites(s, db, u.text) else db
  }

  // ---------------------------------------------------------------------------
  // What each callback does

  /** start ends the conversation for a user already in the store and
      otherwise asks for a name; either way the sender is remembered and the
      store is not written. */
  lemma StartSpec(s: Session, db: Db, sender: string, parse: string -> Option<int>)
    requires s.state == Ended
    ensures var (s', r) := StepReceive(s, db, sender, Command(StartCommand), parse);
      var known := FindUser(db.users, sender);
      && ReceiveWrites(s, db, Command(StartCommand)) == db && r.Some? && r.value.Next?
      && s' == s.(state := r.value.state, telegramId := Some(sender))
      && (known.Some? ==> r.value == Next(Ended, WelcomeBack(known.value.name)))
      && (known.None? ==> r.value == Next(AskName, AskForName))
  {
  }

  /** ask_account_name keeps the name with no surrounding whitespace,
      resets the account list to empty and asks for the first account. */
  lemma NameSpec(s: Session, db: Db, sender: string, text: string, parse: string -> Option<int>)
    requires s.state == AskName
    ensures var (s', r) := StepReceive(s, db, sender, Text(text), parse);
      && ReceiveWrites(s, db, Text(text)) == db && r == Some(Next(AskAccountName, AskFirstAccount))
      && s' == s.(state := AskAccountName, name := Some(Strip(text)), accounts := Some([]))
      && (Strip(text) != [] ==> !IsSpace(Strip(text)[0]) && !IsSpace(Strip(text)[|Strip(text)| - 1]))
  {
    assert Route(s.state, Text(text)) == OnName;
    assert StepReceive(s, db, sender, Text(text), parse)
      == (s.(state := AskAccountName, name := Some(Strip(text)), accounts := Some([])), Some(Next(AskAccountName, AskFirstAccount)));
    StripProperties(text);
  }

  /** ask_initial_balance keeps the trimmed account name and asks for its
      balance; the collected list is untouched. */
  lemma AccountNameSpec(s: Session, db: Db, sender: string, text: string, parse: string -> Option<int>)
    requires s.state == AskAccountName
    ensures var (s', r) := StepReceive(s, db, sender, Text(text), parse);
      && ReceiveWrites(s, db, Text(text)) == db && r == Some(Next(AskInitialBalance, AskBalance(Strip(text))))
      && s' == s.(state := AskInitialBalance, current := Some(Strip(text)))
  {
  }

  /** An unreadable balance keeps the state and the list as they are; a
      readable one appends exactly one pair, the kept account name with that
      balance, and asks whether to add another. */
  lemma BalanceSpec(s: Session, db: Db, sender: string, text: string, parse: string -> Option<int>)
    requires Consistent(s) && s.state == AskInitialBalance
    ensures var (s', r) := StepReceive(s, db, sender, Text(text), parse);
      && ReceiveWrites(s, db, Text(text)) == db
      && (parse(Strip(text)).None? ==> s' == s && r == Some(Next(AskInitialBalance, InvalidNumber)))
      && (parse(Strip(text)).Some? ==>
            && r == Some(Next(AskAddAnother, AskAnother))
            && s'.accounts.Some? && |s'.accounts.value| == |s.accounts.value| + 1
            && s'.accounts.value == s.accounts.value + [(s.current, parse(Strip(text)).value)]
            && s' == s.(state := AskAddAnother, accounts := s'.accounts))
  {
    assert Route(s.state, Text(text)) == OnBalance;
    var (s1, r1) := StepSave(s, text, parse);
    assert StepReceive(s, db, sender, Text(text), parse)
      == (if r1.Next? then s1.(state := r1.state) else s1, Some(r1));
  }

  /** "yes" or "y", in any case and with surrounding whitespace, returns to
      asking for an account name and writes nothing. */
  lemma AnotherSpec(s: Session, db: Db, sender: string, text: string, parse: string -> Option<int>)
    requires s.state == AskAddAnother && WantsAnother(text)
    ensures StepReceive(s, db, sender, Text(text), parse) == (s.(state := AskAccountName), Some(Next(AskAccountName, AskNextAccount)))
    ensures ReceiveWrites(s, db, Text(text)) == db
  {
  }

  /** Any other answer at a consistent session ends the conversation and
      writes the user and the collected accounts (`OnboardingWrites`) for the
      remembered sender and name. The only refusal is a sender already in
      the store, which raises, keeps the state and writes nothing. */
  lemma FinishSpec(s: Session, db: Db, sender: string, text: string, parse: string -> Option<int>)
    requires Consistent(s) && s.state == AskAddAnother && !WantsAnother(text)
    ensures var (s', r) := StepReceive(s, db, sender, Text(text), parse);
      var tid := s.telegramId.value;
      var db' := ReceiveWrites(s, db, Text(text));
      && (FindUser(db.users, tid).Some? ==> s' == s && db' == db && r == Some(Failed))
      && (FindUser(db.users, tid).None? ==>
            && r == Some(Next(Ended, SetupComplete(s.name.value)))
            && s' == s.(state := Ended)
            && db' == CreateAll(StepCreateUser(db, tid, s.name.value).0, |db.users| + 1, s.accounts.value))
  {
  }

  /** The writes of a completed setup for a sender not yet in the store:
      exactly one new user, then one account per collected pair with that
      name and balance, owned by the new user, in the order collected, so
      that the user's balances list exactly those accounts in that order. */
  lemma {:induction false} OnboardingWrites(db: Db, telegramId: string, name: string, pending: seq<Pending>)
    requires WellFormed(db) && FindUser(db.users, telegramId).None?
    ensures
      var (db1, user) := StepCreateUser(db, telegramId, name);
      var uid := |db.users| + 1;
      && user == Some(User(uid, telegramId, name))
      && var db' := CreateAll(db1, uid, pending);
      && WellFormed(db')
      && db'.users == db.users + [User(uid, telegramId, name)]
      && db'.transactions == db.transactions
      && |db'.accounts| == |db.accounts| + |pending|
      && db'.accounts[..|db.accounts|] == db.accounts
      && |AllBalances(db'.accounts, uid)| == |pending|
      && (forall i :: 0 <= i < |pending| ==>
            AllBalances(db'.accounts, uid)[i]
              == Account(|db.accounts| + i + 1, pending[i].0, ColumnDefault, pending[i].1, uid))
  {
    CreateUserSpec(db, [], telegramId, name);
    var (db1, user) := StepCreateUser(db, telegramId, name);
    var uid := user.value.id;
    assert db1.accounts == db.accounts && uid == |db.users| + 1;
    CreateAllSpec(db1, uid, pending);
    var accounts := CreateAll(db1, uid, pending).accounts;
    var n := |db1.accounts|;
    var added := accounts[n..];
    assert accounts == db.accounts + added;
    forall i | 0 <= i < |added|
      ensures added[i] == Account(n + i + 1, pending[i].0, ColumnDefault, pending[i].1, uid)
    {
      assert added[i] == accounts[n + i];
    }
    forall i | 0 <= i < |db.accounts| ensures db.accounts[i].userId != uid {
      assert db.accounts[i].userId <= |db.users|;
    }
    AllBalancesOfNewOwner(db.accounts, added, uid);
  }

  /** /cancel ends the conversation from every active state and changes
      nothing else. */
  lemma CancelSpec(s: Session, db: Db, sender: string, parse: string -> Option<int>)
    requires s.state != Ended
    ensures StepReceive(s, db, sender, Command(CancelCommand), parse) == (s.(state := Ended), Some(Next(Ended, Cancelled)))
    ensures ReceiveWrites(s, db, Command(CancelCommand)) == db
  {
  }

  /** With no conversation active only /start is handled; every other
      update leaves the session and the store as they are. */
  lemma EndedSpec(s: Session, db: Db, sender: string, u: Update, parse: string -> Option<int>)
    requires s.state == Ended && u != Command(StartCommand)
    ensures StepReceive(s, db, sender, u, parse) == (s, None)
    ensures ReceiveWrites(s, db, u) == db
  {
  }

  /** Every update keeps the session consistent. */
  lemma ReceiveConsistent(s: Session, db: Db, sender: string, u: Update, parse: string -> Option<int>)
    requires Consistent(s)
    ensures Consistent(StepReceive(s, db, sender, u, parse).0)
  {
    match Route(s.state, u)
    case OnBalance =>
      var (s1, r1) := StepSave(s, u.text, parse);
      assert StepReceive(s, db, sender, u, parse).0 == if r1.Next? then s1.(state := r1.state) else s1;
    case OnAddAnother =>
      var r1 := FinishResult(s, db, u.text);
      assert StepReceive(s, db, sender, u, parse).0 == if r1.Next? then s.(state := r1.state) else s;
    case _ =>
  }

  /** At a consistent session a callback raises exactly when the final
      answer comes from a sender the store already holds. */
  lemma ReceiveFailure(s: Session, db: Db, sender: string, u: Update, parse: string -> Option<int>)
    requires Consistent(s)
    ensures StepReceive(s, db, sender, u, parse).1 == Some(Failed) <==>
      && s.state == AskAddAnother && u.Text? && !WantsAnother(u.text)
      && FindUser(db.users, s.telegramId.value).Some?
  {
    match Route(s.state, u)
    case OnBalance =>
      var (s1, r1) := StepSave(s, u.text, parse);
      assert StepReceive(s, db, sender, u, parse).1 == Some(r1);
    case OnAddAnother =>
      assert StepReceive(s, db, sender, u, parse).1 == Some(FinishResult(s, db, u.text));
    case _ =>
  }

  // ---------------------------------------------------------------------------
  // The conversation as an object

  /** The loop of ask_next_or_finish: one create_account per collected pair,
      in order, each account starting from its collected balance. */
  method CreateAccounts(ledger: Ledger, uid: nat, pending: seq<Pending>)
    requires ledger.Valid() && 1 <= uid <= |ledger.users|
    modifies ledger
    ensures ledger.Valid()
    ensures ledger.Snapshot() == CreateAll(old(ledger.Snapshot()), uid, pending)
    ensures ledger.openings == old(ledger.openings) + Openings(pending)
  {
    ghost var db1 := ledger.Snapshot();
    ghost var o1 := ledger.openings;
    for i := 0 to |pending|
      invariant ledger.Valid()
      invariant 1 <= uid <= |db1.users| && db1.users == ledger.users
      invariant ledger.Snapshot() == CreateAll(db1, uid, pending[..i])
      invariant ledger.openings == o1 + Openings(pending[..i])
    {
      var (accName, balance) := pending[i];
      assert pending[..i + 1][..i] == pending[..i];
      assert ledger.users[uid - 1].id == uid;
      var created := ledger.CreateAccount(uid, accName, balance);
      assert created.Some?;
      assert Openings(pending[..i + 1]) == Openings(pending[..i]) + [balance];
    }
    assert pending[..|pending|] == pending;
  }

  class Conversation {
    var state: State
    var telegramId: Option<string>
    var name: Option<string>
    var accounts: Option<seq<Pending>>
    var current: Option<string>

    function Snapshot(): Session
      reads this
    {
      Session(state, telegramId, name, accounts, current)
    }

    constructor ()
      ensures Snapshot() == Session(Ended, None, None, None, None)
    {
      state, telegramId, name, accounts, current := Ended, None, None, None, None;
    }

    method Start(ledger: Ledger, sender: string) returns (r: Result)
      modifies this
      ensures (Snapshot(), r) == StepStart(old(Snapshot()), ledger.Snapshot(), sender)
    {
      var user := FindUser(ledger.users, sender);
      telegramId := Some(sender);
      if user.Some? {
        return Next(Ended, WelcomeBack(user.value.name));
      }
      return Next(State.AskName, AskForName);
    }

    method AskAccountName(text: string) returns (r: Result)
      modifies this
      ensures (Snapshot(), r) == StepAskAccountName(old(Snapshot()), text)
    {
      name := Some(Strip(text));
      accounts := Some([]);
      r := Next(State.AskAccountName, AskFirstAccount);
    }

    method AskInitialBalance(text: string) returns (r: Result)
      modifies this
      ensures (Snapshot(), r) == StepAskInitialBalance(old(Snapshot()), text)
    {
      current := Some(Strip(text));
      r := Next(State.AskInitialBalance, AskBalance(current.value));
    }

    method SaveAccountAndAskMore(text: string, parse: string -> Option<int>) returns (r: Result)
      modifies this
      ensures (Snapshot(), r) == StepSave(old(Snapshot()), text, parse)
    {
      var balance := parse(Strip(text));
      if balance.None? {
        return Next(State.AskInitialBalance, InvalidNumber);
      }
      if accounts.None? || current.None? {
        return Failed;
      }
      accounts := Some(accounts.value + [(Some(current.value), balance.value)]);
      r := Next(State.AskAddAnother, AskAnother);
    }

    /** ask_next_or_finish. Besides the writes of `FinishWrites`, every
        account it creates starts from its collected balance, so each
        balance stays equal to its creation value plus its transactions'
        net. */
    method AskNextOrFinish(ledger: Ledger, text: string) returns (r: Result)
      requires ledger.Valid()
      modifies ledger
      ensures ledger.Valid()
      ensures r == FinishResult(Snapshot(), old(ledger.Snapshot()), text)
      ensures ledger.Snapshot() == FinishWrites(Snapshot(), old(ledger.Snapshot()), text)
      ensures ledger.openings == old(ledger.openings) + FinishOpenings(Snapshot(), old(ledger.Snapshot()), text)
    {
      if WantsAnother(text) {
        return Next(State.AskAccountName, AskNextAccount);
      }
      if telegramId.None? || name.None? {
        return Failed;
      }
      var user := ledger.CreateUser(telegramId.value, name.value);
      if user.None? || accounts.None? {
        return Failed;
      }
      CreateAccounts(ledger, user.value.id, accounts.value);
      r := Next(Ended, SetupComplete(name.value));
    }

    method Receive(ledger: Ledger, sender: string, u: Update, parse: string -> Option<int>) returns (r: Option<Result>)
      requires ledger.Valid()
      modifies this, ledger
      ensures ledger.Valid()
      ensures (Snapshot(), r) == StepReceive(old(Snapshot()), old(ledger.Snapshot()), sender, u, parse)
      ensures ledger.Snapshot() == ReceiveWrites(old(Snapshot()), old(ledger.Snapshot()), u)
      ensures ledger.openings == old(ledger.openings)
        + (if Route(old(state), u) == OnAddAnother then FinishOpenings(old(Snapshot()), old(ledger.Snapshot()), u.text) else [])
    {
      ghost var s0, db0 := Snapshot(), ledger.Snapshot();
      var h := Route(state, u);
      var res: Result;
      match h {
        case NoHandler => return None;
        case OnStart => res := Start(ledger, sender);
        case OnName => res := AskAccountName(u.text);
        case OnAccountName => res := AskInitialBalance(u.text);
        case OnBalance => res := SaveAccountAndAskMore(u.text, parse);
        case OnAddAnother => res := AskNextOrFinish(ledger, u.text);
        case OnCancel => res := Next(Ended, Cancelled);
      }
      ghost var s1 := Snapshot();
      assert StepReceive(s0, db0, sender, u, parse)
        == (if res.Next? then s1.(state := res.state) else s1, Some(res));
      if res.Next? {
        state := res.state;
      }
      r := Some(res);
    }
  }
}
