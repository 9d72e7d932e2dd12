# A tiny console bank, modelled in Dafny

The program is a console menu over three classes. A `Bank` holds a list of `Customer`s. A
`Customer` holds a list of `Account`s. An `Account` holds a number, a balance and a log of
`Transaction`s. Each menu choice reads a few fields, looks customers and accounts up and
calls one operation:

- create a customer;
- create an account for a customer;
- deposit;
- withdraw;
- transfer;
- show a customer;
- show an account's history;
- exit.

The model has three layers.

- **Values** (`ledger.dfy`, module `Ledger`; `menu.dfy`, module `Menu`):
  - the bank as a tree of datatypes (`BankState`, `CustomerState`, `AccountState`, `Transaction`);
  - what `deposit`, `withdraw` and `transfer` do to an account (`Deposited`, `Withdrawn`, `Transferred`);
  - the first-match lookups (`FirstMatch`, `Locate`, `LocateEnds`);
  - one menu choice as a step function `Step` from a bank state to the next state and an `Outcome`, which stands for what the program prints;
  - a run of the loop over a finite sequence of choices (`Run`).

  The lemmas here state what the program promises:
  - exact balance and log changes;
  - a refused operation changes nothing;
  - a transfer conserves money and records two entries, also from an account to itself;
  - customers, accounts and log entries are only ever appended;
  - a duplicate ID or account number is never found, because the earlier one wins;
  - balances stay non-negative unless a typed amount is negative.
- **Objects** (`banking.dfy`, module `Banking`):
  - the three classes, with the fields the program updates in place;
  - `Account.Deposit`/`Withdraw`/`Transfer`, `Customer.CreateAccount`/`GetAccount` and `Bank.CreateCustomer`/`GetCustomer` as methods with `modifies` clauses and loops;
  - each method is proved against the value functions. `State()` and `View()` read the objects out as values.
  - `Valid()` says the objects form a tree (no customer twice, no account object in two places), and every operation keeps it.
- **The loop** (`console.dfy`, module `Console`):
  - the body of `main`'s loop, with I/O taken out. A choice arrives as a `Menu.Command` carrying every field it may ask for; its report comes back as an `Outcome`.
  - every dispatcher is proved to change `bank.View()` exactly as `Menu.Step` changes a bank state;
  - `RunCommands` is proved to end in the state and with the outcomes of `Menu.Run`.

Amounts are whole numbers of cents (the program uses `double`). Every transaction carries
the same date string, because the program stamps the build date and time (`__DATE__ " "
__TIME__`). The model uses the constant `Ledger.BuildStamp` as a placeholder for that
string.

## Model

| member | source | states |
|---|---|---|
| Ledger.FirstMatch | main.cpp:119-126 | the scan returns the index of the first element equal to the key, with no earlier match; it returns None exactly when the key is absent |
| Ledger.FirstMatchAppend | main.cpp:114-126 | appending an element never changes where an earlier-present key is found; an absent key is found at the new last index only if it equals the appended one |
| Ledger.TransferredByAccounts | main.cpp:49-57 | the bank after a transfer is the bank with the source and then the target replaced by the states `withdraw` and `deposit` leave them in; when both are one account, both replacements are its final state |
| Ledger.RefusedTransferChangesNothing | main.cpp:50-51 | when the amount exceeds the source balance, the transfer leaves every account unchanged |
| Ledger.TransferBetween | main.cpp:49-57 | between two different accounts, the source loses the amount and logs one Withdrawal, the target gains it and logs one Deposit, and every other account and the bank's shape are unchanged |
| Ledger.TransferToSelf | main.cpp:49-57 | from an account to itself, the balance is unchanged and the log gains a Withdrawal followed by a Deposit; every other account is unchanged |
| Ledger.TransferConservesTotal | main.cpp:49-57 | a transfer, refused or not and also to itself, leaves the total money of the bank unchanged |
| Ledger.TransferRecordsTwo | main.cpp:53-54 | a transfer that passes the guard adds exactly two transactions to the bank's logs |
| Menu.Locate | main.cpp:168-172 | customer not found exactly when the ID is absent; account not found means the first customer with the ID lacks the number; found means first matches at both levels |
| Menu.LocateEnds | main.cpp:215-222 | customers missing exactly when either ID is absent; accounts missing exactly when both customers exist and either first-match customer lacks its number; otherwise both ends are the first matches |
| Menu.InvalidExactlyOffMenu | main.cpp:262-264 | for a command the menu can produce, "invalid choice" is reported exactly when the number typed is not 1 to 8, and the bank is kept |
| Menu.StepUnchangedUnlessChanged | main.cpp:140-264 | every choice that does not report a successful creation, deposit, withdrawal or transfer leaves the bank state exactly as it was |
| Menu.StepNotFound | main.cpp:148-258 | for each choice, customer-not-found and account-not-found are reported exactly when the program's lookups fail, customer before account; for a transfer, customers-missing exactly when either ID is absent, and accounts-missing exactly when both customers exist and either first-match customer lacks its number |
| Menu.CreateCustomerAccounting | main.cpp:140-147 | creating a customer changes neither the total money nor the number of transactions |
| Menu.CreateAccountAccounting | main.cpp:148-162 | creating an account records no transaction and adds its initial balance to the total when the customer exists |
| Menu.DepositAccounting | main.cpp:163-182 | a deposit that finds its account adds one transaction and the amount to the total; otherwise nothing changes |
| Menu.WithdrawAccounting | main.cpp:183-202 | a withdrawal that succeeds adds one transaction and removes the amount from the total; otherwise nothing changes |
| Menu.TransferAccounting | main.cpp:203-231 | a transfer keeps the total and adds two transactions exactly when it is done |
| Menu.StepAccounting | main.cpp:140-264 | every choice changes the transaction count and the total money by exactly what its outcome reports |
| Menu.TransferExtends | main.cpp:49-57 | a transfer only appends log entries and keeps every account number |
| Menu.CreateAccountExtends | main.cpp:148-162 | creating an account keeps every existing customer and account in place |
| Menu.DepositExtends | main.cpp:163-182 | a deposit keeps every name, ID and account number, only appends to logs, and leaves every account other than the one it finds exactly as it was |
| Menu.WithdrawExtends | main.cpp:183-202 | a withdrawal keeps every name, ID and account number, only appends to logs, and leaves every account other than the one it finds exactly as it was |
| Menu.TransferStepExtends | main.cpp:203-231 | choice 5 only appends to logs |
| Menu.StepExtends | main.cpp:140-264 | no choice removes, reorders or renames a customer or an account, or alters a logged entry: logs are append-only |
| Menu.ExtendsTransitive | main.cpp:134-265 | append-only growth composes over consecutive steps |
| Menu.CreateCustomerLookup | main.cpp:114-126 | after creating a customer with an ID already in use, every ID is found where it was before; only a previously absent ID is found at the new customer |
| Menu.CreateAccountLookup | main.cpp:86-98 | the same for account numbers within the customer that receives the new account |
| Menu.StepKeepsSolvent | main.cpp:140-264 | with non-negative typed amounts, the guard `amount > balance` keeps every balance non-negative through any choice |
| Menu.CreateCustomerKeepsSolvent | main.cpp:140-147 | a new customer keeps every balance non-negative |
| Menu.CreateAccountKeepsSolvent | main.cpp:148-162 | a new account with a non-negative initial balance keeps every balance non-negative |
| Menu.TransferKeepsSolvent | main.cpp:203-231 | a transfer of a non-negative amount keeps every balance non-negative |
| Menu.NegativeTransferOverdraws | main.cpp:49-57 | a transfer of -500 between two zero-balance accounts passes the guard and leaves the target at -500 |
| Menu.NegativeDepositOverdraws | main.cpp:33-37 | a deposit of -500 is accepted and leaves the balance at -500 |
| Menu.RunExtends | main.cpp:134-265 | over a whole run, customers, accounts and log entries are only ever added |
| Menu.RunKeepsSolvent | main.cpp:134-265 | over a whole run with non-negative typed amounts, every balance stays non-negative |
| Menu.RunOutcomes | main.cpp:134-265 | a run reports at most one outcome per choice, fewer only when an Exit cut it short, and Exiting only as its last outcome |
| Menu.Walkthrough | main.cpp:130-268 | a seven-choice session (two customers, an opening deposit, a refused withdrawal, a transfer) ends with the stated balances, logs and outcomes |
| Banking.Account.constructor | main.cpp:28-29 | a new account has the given number and balance and an empty log |
| Banking.Account.Deposit | main.cpp:33-37 | the balance grows by the amount, whatever its sign, and the log gains one Deposit entry |
| Banking.Account.Withdraw | main.cpp:39-47 | refused with nothing changed exactly when the amount exceeds the balance; otherwise the balance drops by the amount and the log gains one Withdrawal |
| Banking.Account.Transfer | main.cpp:49-57 | refused with nothing changed exactly when the amount exceeds the source balance; to another account, a withdrawal here and a deposit there; to itself, an unchanged balance and two entries |
| Banking.Customer.constructor | main.cpp:81-82 | a new customer has the given name and ID and no accounts |
| Banking.Customer.CreateAccount | main.cpp:86-89 | one fresh account with the given number and balance is appended, and the earlier accounts are kept |
| Banking.Customer.GetAccount | main.cpp:91-98 | returns the first account with the number, or null exactly when none has it |
| Banking.Bank.constructor | main.cpp:131 | a new bank has no customers, and its object tree is valid, as every choice requires |
| Banking.Bank.CreateCustomer | main.cpp:114-117 | one fresh customer with no accounts is appended, with no duplicate check; the view gains its state and the tree stays valid |
| Banking.Bank.GetCustomer | main.cpp:119-126 | returns the first customer with the ID, or null exactly when none has it |
| Console.FindAccount | main.cpp:168-172 | the customer and then the account, found exactly as `Menu.Locate` finds them in the view |
| Console.CreateCustomerChoice | main.cpp:140-147 | on the objects, choice 1 changes the view as `Menu.CreateCustomerStep` does and reports its outcome |
| Console.AddAccount | main.cpp:159 | the customer at index i gains a new account in the view, and nothing else changes |
| Console.CreateAccountChoice | main.cpp:148-162 | choice 2 changes the view as `Menu.CreateAccountStep` does and reports its outcome |
| Console.DepositChoice | main.cpp:163-182 | choice 3 changes the view as `Menu.DepositStep` does and reports its outcome |
| Console.WithdrawChoice | main.cpp:183-202 | choice 4 changes the view as `Menu.WithdrawStep` does and reports its outcome |
| Console.FindEnds | main.cpp:215-222 | both customers, then both accounts, found exactly as `Menu.LocateEnds` finds them |
| Console.TransferAt | main.cpp:225 | `from.transfer(to, amount)` on the objects at two locations, aliased or not, turns the view into `Ledger.Transferred` of it |
| Console.TransferChoice | main.cpp:203-231 | choice 5 changes the view as `Menu.TransferStep` does and reports its outcome |
| Console.DisplayAccountInfoChoice | main.cpp:232-241 | choice 6 reports the first matching customer's state, or not found, and changes nothing |
| Console.DisplayHistoryChoice | main.cpp:242-258 | choice 7 reports the found account's log, or which lookup failed, and changes nothing |
| Console.DispatchCreate | main.cpp:140-162 | choices 1 and 2 follow `Menu.Step` |
| Console.DispatchMoney | main.cpp:163-231 | choices 3 to 5 follow `Menu.Step` and change no object outside the accounts |
| Console.DispatchQuery | main.cpp:232-264 | choices 6 to 8 and an invalid choice follow `Menu.Step` and change nothing |
| Console.Dispatch | main.cpp:140-264 | one pass of the loop body changes the view exactly as `Menu.Step` does, keeps the object tree valid, and allocates only new objects |
| Console.Turn | main.cpp:134-265 | one turn of the loop inside a run: the outcomes so far plus the run of the remaining choices still give the whole run, which ends here on Exit |
| Console.RunCommands | main.cpp:130-268 | the loop over a sequence of choices ends in `Menu.Run`'s state with its outcomes, stopping right after Exit |

## Left out

- Console input and output are left out. A choice arrives already parsed as a `Menu.Command`, and every message the program prints is an `Outcome`.
- Token parsing is left out, including what `cin` does with malformed input or at end of input.
- The text formats of `displayTransaction`, `displayAccountInfo` and `displayCustomerInfo` are left out. Choice 6 reports the customer's state and choice 7 the log; an empty log stands for "No transactions found".
- Amounts are `double` in the program and whole cents (`int`) in the model, so floating-point rounding is not modelled.
- The date of a transaction is the build date and time, a compile-time constant. `Ledger.BuildStamp` stands for it.
- The element type of `vector<Transaction>` is `Ledger.Transaction`, a value, because a transaction is never changed once it is logged.
- The addresses that `getCustomer` and `getAccount` return are modelled as object references. `emplace_back` may move the elements of a vector, but the program never keeps an address across an append, so no move can be observed.
- Console.RunCommands: the program's loop has no end other than choice 8. The model runs over a finite sequence of choices and stops when they run out. The program at the end of input does not stop: every later `cin >>` fails, choice 8 is never read, and `while (true)` at main.cpp:134 goes on for ever. That endless tail is not modelled.
- Choices read their fields one at a time, and a later field only after the lookups before it succeed. This affects choices 2, 3, 4, 5 and 7 (main.cpp:153-158, 168-175, 188-195, 222-224, 246-249). When a lookup fails, the tokens a choice did not ask for are read as the next menu choices. The model takes a choice with all its fields as one `Command`, so this re-reading of the input is not captured.
- A `Command` of the form `Unknown(n)` with `n` between 1 and 8 cannot come from the menu; `Menu.KnownChoice` excludes it. `Menu.Step` still maps such a command to "invalid choice", and only `Menu.InvalidExactlyOffMenu` requires `KnownChoice`.
- Positive amounts are not enforced, because the program checks none. `Menu.NegativeDepositOverdraws` and `Menu.NegativeTransferOverdraws` show that a negative amount can drive a balance below zero, and `Menu.StepKeepsSolvent` requires non-negative typed amounts.
