# Money-manager bot ledger, in Dafny

A Telegram bot keeps a small household ledger. Each chat user has a row in
`users`, any number of named `accounts` (Cash, HDFC, …), and `transactions`,
each of which is an income or an expense on one account. Every account also
caches its current balance.

When a message arrives, the webhook handler does three things:

- it resolves the sender to a user, creating the user when the sender is unseen;
- it asks a language model to turn the free text into a structured intent;
- it applies that intent to the ledger: record an income or expense, list the
  balances, set a balance through a "Balance correction" entry, or transfer
  between two accounts.

An onboarding conversation collects the user's name and a list of opening
accounts, then writes them. A report summarises a user's rows:

- income and expense totals that leave balance corrections out;
- one table per account that has rows, with a balance replayed from 0;
- a combined list of all rows sorted by date.

The project models these parts. There is one module per source file:

| module | file | models |
|---|---|---|
| `Models` | `models.dfy` | the three tables' rows and the transaction-type enumeration |
| `Strings` | `strings.dfy` | Python's `str.lower`, `str.strip` and `s[:n]` |
| `Crud` | `crud.dfy` | the store operations |
| `Intents` | `intent.dfy` | the shape of the interpreter's output |
| `BotHandler` | `bot_handler.dfy` | the webhook's dispatch |
| `Setup` | `setup.dfy` | the onboarding state machine |
| `Report` | `report.dfy` | the report's numbers and order |

Each stateful part appears twice:

- as a value with transition functions (`Crud.Db` with `Step…`, `Setup.Session` with `Step…`), about which the lemmas are stated;
- as an object whose methods change fields in place (`Crud.Ledger`, `Setup.Conversation`), and which is proved to perform exactly those transitions.

`Crud.Ledger.Valid` bundles two properties:

- the schema's constraints: serial keys, a unique telegram id, foreign keys, `initial_balance` never set and `transactions.user_id` never set;
- the balance invariant: every account's balance equals the value it was created with plus the signed sum of its transactions.

Every store method keeps `Valid`. The ghost sequence `openings` records each account's creation value. The handler's methods promise that they keep the earlier values and that every account they create opens at 0. The onboarding promises that it adds exactly the collected balances.

Modelling choices, each following the code:

- **Rejected inserts.** An insert the database refuses is a `None` result, with the tables unchanged. These are a duplicate telegram id, an account for a missing user, and a transaction for a missing account (the `None` that `add_transaction` dereferences).
- **Exceptions.** The handler's `Raised` outcome is a `KeyError` on `parsed["account"]`. Whatever was committed before it stays committed.
- **The `date` default.** `add_transaction`'s default for `date` is evaluated once, when the module is loaded (`app/db/crud.py:28`). It is therefore the constant `Ledger.defaultDate`. The adjustment and transfer paths use that default.
- **Undated records.** The record path passes an explicit `None` when no date was given. The ORM leaves a None-valued attribute out of the INSERT when its column has a default, so the column's server default `now()` (`app/db/models.py:44`) dates the row. The database clock is the parameter `now` of `add_transaction` and of the handler. Every stored row therefore carries a date.
- **Zero corrections.** Setting a balance to its current value writes an "expense" correction of 0. The code's test is `diff > 0`.
- **Transfers.** A transfer looks both account names up before creating either. Two equal names that are both absent therefore create two accounts.
- **Null names.** In a transfer, a missing `from_account` or `account` key defaults to "Cash" (`dict.get`, app/bot_handler.py:82-83); in a record or a balance adjustment a missing `account` key raises. A key present with null gives a NULL name, which no lookup matches, as with SQL `ILIKE NULL`.

## Model

| member | source | states |
|---|---|---|
| Models.TypeOf | app/db/models.py:7-9 | a string names a member of the transaction-type enumeration exactly when it is "income" or "expense", and the member found carries that string |
| Models.TypeNameRoundTrip | app/db/models.py:7-9 | each enumeration member's value maps back to that member and is "income" or "expense" |
| Intents.FallbackIntent | app/utils/nlp.py:89-91 | when the interpreter fails, the intent is `unknown` with amount 0 and every other field at its class default: account "Cash", description "Miscellaneous", no date, no source account, no limit |
| Intents.GetOr | app/bot_handler.py:82-83 | `dict.get(key, default)`: a missing key gives the default, a null value gives NULL, and a present value gives that value |
| Strings.Lower | app/utils/setup_bot.py:48 | lower-casing keeps the length |
| Strings.LowerSpec | app/utils/setup_bot.py:48 | lower-casing maps each character by itself and leaves no upper-case letter |
| Strings.StripStart | app/utils/setup_bot.py:22 | removing leading whitespace never lengthens the text |
| Strings.StripStartSpec | app/utils/setup_bot.py:22 | the result is a suffix of the input; everything removed is whitespace; the result starts with a non-space or is empty |
| Strings.StripEnd | app/utils/setup_bot.py:22 | removing trailing whitespace never lengthens the text |
| Strings.StripEndSpec | app/utils/setup_bot.py:22 | the result is a prefix of the input; everything removed is whitespace; the result ends with a non-space or is empty |
| Strings.StripProperties | app/utils/setup_bot.py:28 | a stripped answer starts and ends with a non-space, and stripping it again changes nothing |
| Strings.Prefix | app/utils/generate_pdf.py:59 | `s[:n]` is a prefix of `s` of length at most `n`: all of `s` when it is shorter, exactly `n` characters otherwise |
| Crud.FindUser | app/db/crud.py:12-13 | get_user returns a stored user with the queried telegram id, and returns nothing exactly when no stored user has it |
| Crud.FindAccountSpec | app/db/crud.py:22-26 | get_account_by_name returns a stored account of the user whose name equals the query ignoring case, and returns nothing exactly when no such account exists |
| Crud.AllBalances | app/db/crud.py:49-50 | the user's accounts are at most all accounts |
| Crud.AllBalancesMembers | app/db/crud.py:49-50 | get_all_balances returns exactly the accounts whose owner is the user |
| Crud.AccountIndex | app/db/crud.py:39 | the by-id query finds an account row with that id, and finds none exactly when no row has it |
| Crud.EffectByType | app/db/crud.py:40-43 | an expense lowers the balance by its amount, an income raises it by its amount, and any other type leaves it |
| Crud.NetAppend | app/db/crud.py:40-43 | one more transaction adds its signed amount to its own account's net and nothing to any other account's |
| Crud.NetOfUnreferenced | app/db/crud.py:15-20 | an account no transaction references has net 0, so a new account's balance is its creation value |
| Crud.EmptyIsValid | app/db/init_db.py:4-5 | the freshly created empty schema satisfies every constraint and the balance invariant |
| Crud.FindUserFindsStored | app/db/models.py:16 | with telegram ids unique, get_user finds every stored user by its own id |
| Crud.CreateUserSpec | app/db/crud.py:5-10 | create_user appends exactly one user with the next key, the id and the name precisely when the telegram id is new; a duplicate changes nothing; every invariant is kept |
| Crud.CreateAccountSpec | app/db/crud.py:15-20 | create_account appends an account with the next key, the name, the given balance and `initial_balance` at its column default, precisely when the user exists; every invariant is kept |
| Crud.AddTransactionSpec | app/db/crud.py:28-47 | when the account exists, exactly one row with the given fields and a NULL user id is appended, dated with the given date or, when none is given, with the database clock; only that account's balance moves, by the type's effect; when it does not, nothing changes |
| Crud.AddTransactionKeepsInvariants | app/db/crud.py:36-45 | add_transaction keeps the schema's constraints and keeps each balance equal to its creation value plus its transactions' net |
| Crud.CreateAllSpec | app/utils/setup_bot.py:58-59 | creating the collected accounts one after another appends them in order, with their names and balances and owned by the user, and keeps the store well formed |
| Crud.AllBalancesAppend | app/db/crud.py:49-50 | the balances query over two runs of rows is the query over the first run followed by the query over the second |
| Crud.AllBalancesUniform | app/db/crud.py:49-50 | rows that all belong to the user are returned whole; rows none of which do give nothing |
| Crud.AllBalancesOfNewOwner | app/db/crud.py:49-50 | after other owners' rows, a new user's rows are exactly that user's balances |
| Crud.Ledger.constructor | app/db/crud.py:28 | an empty valid store whose default transaction date is fixed when it is created |
| Crud.Ledger.CreateUser | app/db/crud.py:5-10 | performs the create_user transition on the tables in place and keeps the invariants |
| Crud.Ledger.CreateAccount | app/db/crud.py:15-20 | performs the create_account transition in place, records the new account's creation value, and keeps the invariants |
| Crud.Ledger.AddTransaction | app/db/crud.py:28-47 | performs the add_transaction transition in place: appends the row (dated by the clock when no date is given), updates the one balance, keeps every creation value and keeps the invariants |
| BotHandler.EffectOfType | app/db/crud.py:40-43 | a row typed with an enumeration member moves the balance by +amount for income and -amount for expense |
| BotHandler.Lines | app/bot_handler.py:62-64 | the balance summary has one line per account, in order, with that account's name and balance |
| BotHandler.ResolveUserSpec | app/bot_handler.py:32-34 | a known sender is reused with nothing written; an unseen one becomes exactly one new user; either way a stored user with that telegram id results |
| BotHandler.FoundIsPlaced | app/db/crud.py:22-26 | an account the lookup finds belongs to the user and sits at the position its key names |
| BotHandler.KeepOrCreateSpec | app/bot_handler.py:88-91 | a found account is kept with nothing written; otherwise exactly one account of the user with that name and balance 0 is appended |
| BotHandler.FindOrCreateSpec | app/bot_handler.py:46-48 | the named account of the user: the one found, or a new one with balance 0 when the lookup finds none; users and transactions are untouched |
| BotHandler.RecordSpec | app/bot_handler.py:44-58 | a missing account key raises before any write; otherwise one transaction with the intent's fields is appended, dated with the intent's date or else the database clock; the named account (the one found, or a new row of the user with that name, initial balance 0) keeps every field but its balance, which moves by ±amount, no other account changes, and the reply shows a description exactly when it is not the default |
| BotHandler.CorrectionSpec | app/bot_handler.py:73-78 | the correction is an income of the difference when it is positive and otherwise an expense of its magnitude, described "Balance correction"; afterwards the account row is unchanged except that it holds exactly the target, and no other account changes |
| BotHandler.AdjustSpec | app/bot_handler.py:67-78 | a missing account key raises before any write; otherwise the account is found or created at 0, then corrected by one row dated with add_transaction's default, so that it ends holding the requested amount |
| BotHandler.TransferAccountsSpec | app/bot_handler.py:86-91 | both names are looked up before either account is created; each side is an account of the user: the one found, or a new account with balance 0, and one account is added per name not found |
| BotHandler.TransferAccountsFrame | app/bot_handler.py:86-91 | finding or creating the two accounts writes only accounts, keeps every earlier row and keeps the store well formed |
| BotHandler.TransferLegsSpec | app/bot_handler.py:93-94 | an expense on the source then an income on the target, both of the amount; between distinct accounts the source row loses and the target row gains the amount with every other field kept, so the combined balance is unchanged; an account paying itself keeps its row, and no other account changes |
| BotHandler.TransferSpec | app/bot_handler.py:81-96 | a transfer never raises on a well-formed store; it appends exactly the two legs, dated with the default date, between the resolved accounts, both owned by the user, and replies with the amount and both names |
| BotHandler.BalanceReadSpec | app/bot_handler.py:61-64 | reading balances writes nothing and lists every account of the user, and only those, each with its balance |
| BotHandler.UnhandledSpec | app/bot_handler.py:37 | an intent no branch handles writes nothing and gets the "couldn't understand" reply |
| BotHandler.NotImplementedIntents | app/bot_handler.py:98 | updating or deleting an income or expense, a history request, an unknown intent and the interpreter's fallback are all unhandled |
| BotHandler.HandleMessage | app/bot_handler.py:32-98 | resolves the sender, then performs the dispatched branch on the store in place; every balance stays its creation value plus its transactions' net, with earlier creation values kept and each new account opened at 0 |
| BotHandler.FindOrCreate | app/bot_handler.py:46-48 | performs the lookup-or-create-at-0 in place; earlier creation values are kept and a new account opens at 0 |
| BotHandler.Record | app/bot_handler.py:44-58 | performs the record branch on the store in place; earlier creation values are kept and a new account opens at 0, so the balance invariant holds |
| BotHandler.AdjustBalance | app/bot_handler.py:67-78 | performs the balance-setting branch on the store in place; earlier creation values are kept and a new account opens at 0, so the balance invariant holds |
| BotHandler.TransferAccounts | app/bot_handler.py:86-91 | looks both names up, then creates each missing account at 0, in place; earlier creation values are kept and new ones are 0 |
| BotHandler.TransferFunds | app/bot_handler.py:81-96 | performs the transfer branch on the store in place; earlier creation values are kept and new accounts open at 0, so the balance invariant holds |
| Report.AppendOne | app/utils/generate_pdf.py:103-108 | one more row changes each total, the running balance and the corrections' part by that row's share |
| Report.CorrectionExcluded | app/utils/generate_pdf.py:104 | a "balance correction" row, in any case, adds nothing to either total but still moves the running balance by its signed amount |
| Report.TotalsAppend | app/utils/generate_pdf.py:99-108 | the income total, the expense total and the running balance are sums: they distribute over concatenation of rows |
| Report.ReplaySplit | app/utils/generate_pdf.py:52 | a table's final running balance is income total minus expense total plus what the correction rows contribute |
| Report.ReplayIsNet | app/utils/generate_pdf.py:47-52 | on one account's rows of enumeration types, the replayed balance equals the balance change the store recorded for them |
| Report.Tag | app/utils/generate_pdf.py:102 | each of an account's rows is paired with the account's name, in order |
| Report.GatherIsStream | app/utils/generate_pdf.py:99-102 | the combined list holds exactly the rows of every account, account after account, in the order queried |
| Report.WithTransactionsMembers | app/utils/generate_pdf.py:114-117 | an account gets a table exactly when its query returns a row |
| Report.GatherStep | app/utils/generate_pdf.py:99-102 | one more account extends the stream and the combined list by that account's rows |
| Report.ShownStep | app/utils/generate_pdf.py:114-117 | one more account extends the stream by its rows, and the tabled accounts by it exactly when it has rows |
| Report.TotalsStep | app/utils/generate_pdf.py:103-108 | one more row of an account adds its income and expense shares to the totals |
| Report.Totals | app/utils/generate_pdf.py:96-108 | the totals loop yields the combined list and the income and expense totals over every row, corrections left out |
| Report.AccountTable | app/utils/generate_pdf.py:46-60 | one row per transaction in order, with its date, the amount under Spent exactly for an expense and under Credited exactly for an income, the balance replayed from 0 through that row, and the description cut to 50 characters |
| Report.Insert | app/utils/generate_pdf.py:76 | inserting a row adds exactly that row to the list |
| Report.InsertSorted | app/utils/generate_pdf.py:76 | inserting into a date-sorted list keeps it date-sorted |
| Report.SortByDate | app/utils/generate_pdf.py:76 | the combined order is a permutation of the gathered rows, sorted by date |
| Report.Line | app/utils/generate_pdf.py:77-86 | a combined row shows the account name and the date, the amount under Spent exactly for an expense and under Credited exactly for an income, and the description cut to its first 60 characters |
| Report.CombinedSheet | app/utils/generate_pdf.py:63-87 | one line per gathered row, in sorted order, with dates non-decreasing |
| Report.GenerateReport | app/utils/generate_pdf.py:89-125 | totals over every row of the user's accounts with corrections left out, a table for exactly the accounts with rows, in account order, and the combined list of every row, sorted by date |
| Setup.Route | app/utils/setup_bot.py:68-78 | /start is handled only with no conversation active, /cancel in every active state, and each active state has exactly one text callback; commands never reach a text callback |
| Setup.StartSpec | app/utils/setup_bot.py:8-19 | the sender is remembered; a known user is welcomed back by name and the conversation ends; an unknown one is asked for a name; nothing is written |
| Setup.NameSpec | app/utils/setup_bot.py:21-25 | the name is kept without surrounding whitespace, the account list is reset to empty, and the first account is asked for |
| Setup.AccountNameSpec | app/utils/setup_bot.py:27-30 | the trimmed account name is kept and its balance is asked for; the list is untouched |
| Setup.BalanceSpec | app/utils/setup_bot.py:32-45 | an unreadable number keeps the state and the list and asks again; a readable one appends exactly the kept name with that balance and asks whether to add another |
| Setup.AnotherSpec | app/utils/setup_bot.py:47-51 | "yes" or "y", in any case and with surrounding whitespace, asks for the next account and writes nothing |
| Setup.FinishSpec | app/utils/setup_bot.py:52-62 | any other answer writes the user and then the collected accounts and ends; a sender already stored makes create_user fail, which keeps the state and writes nothing |
| Setup.OnboardingWrites | app/utils/setup_bot.py:53-59 | a completed setup for a new sender adds exactly one user and one account per collected pair, with its name and balance, in the order collected; those are exactly the user's balances |
| Setup.CancelSpec | app/utils/setup_bot.py:64-66 | /cancel ends the conversation from every active state and changes nothing else |
| Setup.EndedSpec | app/utils/setup_bot.py:68-78 | with no conversation active, every update but /start leaves the session and the store as they are |
| Setup.ReceiveConsistent | app/utils/setup_bot.py:68-78 | every update keeps the scratch keys that each state's callback reads set |
| Setup.ReceiveFailure | app/utils/setup_bot.py:53-56 | at a consistent session a callback raises exactly when the final answer comes from a sender the store already holds |
| Setup.Conversation.constructor | app/utils/setup_bot.py:68-78 | a new conversation is inactive with no scratch data |
| Setup.Conversation.Start | app/utils/setup_bot.py:8-19 | performs the start callback on the conversation's fields |
| Setup.Conversation.AskAccountName | app/utils/setup_bot.py:21-25 | performs the name callback on the conversation's fields |
| Setup.Conversation.AskInitialBalance | app/utils/setup_bot.py:27-30 | performs the account-name callback on the conversation's fields |
| Setup.Conversation.SaveAccountAndAskMore | app/utils/setup_bot.py:32-45 | performs the balance callback on the conversation's fields |
| Setup.Openings | app/utils/setup_bot.py:39-42 | the collected balances, one per collected pair, in order |
| Setup.CreateAccounts | app/utils/setup_bot.py:58-59 | creates one account per collected pair, in order, in place, each with its collected balance as its creation value |
| Setup.Conversation.AskNextOrFinish | app/utils/setup_bot.py:47-62 | gives the final answer's result and performs its writes on the store in place; the creation values grow by exactly the collected balances when setup completes, and not at all otherwise |
| Setup.Conversation.Receive | app/utils/setup_bot.py:68-78 | routes one update to the callback of the current state, moves to the state it names unless it raised, and performs its writes on the store; only a completing final answer adds creation values, exactly the collected balances |

## Left out

- Webhook I/O is not modelled: the HTTP request, the `sendMessage` call, logging and the bot token. Replies are values, not rendered text.
- The language-model call that turns text into an intent is external. The intent is an input of the handler.
- Amounts are integers, such as paise. Float arithmetic, its rounding and the `round`/`:.2f` formatting are not modelled.
- Reading a number out of text (`float(...)` in the balance step of the onboarding) is the `parse` parameter.
- Store sessions, commits as separate steps, atomicity across several commits, and concurrent requests are not modelled. Each store operation is one atomic transition.
- `ILIKE` is modelled as equality ignoring case. Its `%` and `_` wildcards are not modelled.
- Crud.FindAccount: `.first()` has no ORDER BY, so the database may return any matching row. The model fixes the one with the lowest key. This matters only for names equal ignoring case, such as two accounts created by one transfer between absent "X" and "x".
- Crud.AllBalances: `.all()` has no ORDER BY, so the database may list the rows in any order. The model fixes primary-key order. The order of the balance reply and of the report's tables is therefore not promised by the source.
- The database clock is one value `now` per handled message. Distinct server timestamps for the inserts of one request are not modelled.
- Lower-casing covers ASCII letters only.
- Strings on both sides of the model have no Unicode normalisation.
- The intent's `description` and `date` keys, and the rows' `description`, are assumed present, and the description non-null. A null description would make the report's `.lower()` raise; that path is not modelled.
- A `type` outside the enumeration, which the database column would reject, is modelled as a row that moves no balance and counts as an expense in the report. The handlers never produce one.
- In the onboarding module, `get_db()` is called directly, which yields a generator rather than a session, so the store calls there could not run as written. The model gives the onboarding callbacks a working store.
- Telegram ids are strings on both paths. The integer-versus-string column comparison is not modelled.
- The per-account range query the report reads (`crud.get_transactions_by_account`) is not defined in app/db/crud.py. It is the report's `query` parameter, and the `start`/`end` bounds are folded into it.
- Report.SortByDate: Python's sort is stable. The model's insertion sort keeps rows with equal dates in gathered order, but that stability is not stated as a contract; only the permutation and the date order are proved.
- The PDF's fonts, colours, cell geometry, the page break and the output file (`app/utils/generate_pdf.py:5-45` and `121-124`) are not modelled.
- The rendering of a NULL account name as a cell is not modelled. The report keeps the name as an optional string.
- The store's relationship attributes (`user.accounts` and the others) are navigation only and are not modelled.
- `transactions.user_id` is never set and `accounts.initial_balance` is never written. Both are kept as invariants (NULL and the column default) rather than as data.
- Update, delete and history requests have no handler (`app/bot_handler.py:98`). The model shows they get the "couldn't understand" reply.
- app/main.py is not part of this model.
- The time-range parser in app/utils/nlp.py is not part of this model.
