/**
 * The body of the program's console loop with its I/O taken out: a menu choice arrives as
 * a `Command` and what would be printed comes back as an `Outcome`. The dispatch looks
 * things up and calls the operations of the objects of module Banking exactly as the
 * loop does, and is proved to do to `bank.View()` what `Menu.Step` does to a bank state.
 */
module Console {
  import opened Wrappers
  import opened Ledger
  import opened Menu
  import opened Banking

  lemma IDsOfView(bank: Bank)
    ensures bank.IDs() == CustomerIDs(bank.View().customers)
  {
  }

  lemma NumbersOfState(c: Customer)
    ensures c.Numbers() == AccountNumbers(c.State().accounts)
  {
  }

  /**
   * A customer by ID and then one of its accounts by number, as choices 3, 4 and 7 look
   * them up: the account is only looked for when the customer was found.
   */
  method FindAccount(bank: Bank, cid: int, number: int) returns (customer: Customer?, account: Account?)
    ensures customer == null <==> Locate(bank.View(), cid, number).NoCustomer?
    ensures account == null <==> !Locate(bank.View(), cid, number).Found?
    ensures match Locate(bank.View(), cid, number)
      case NoCustomer => true
      case NoAccount(i) => i < |bank.customers| && customer == bank.customers[i]
      case Found(l) =>
        ValidLocation(bank.View(), l) && l.customer < |bank.customers| &&
        l.account < |bank.customers[l.customer].accounts| &&
        customer == bank.customers[l.customer] && account == bank.At(l)
  {
    account := null;
    customer := bank.GetCustomer(cid);
    if customer != null {
      account := customer.GetAccount(number);
      NumbersOfState(customer);
    }
    IDsOfView(bank);
  }

  /** Choice 1. */
  method CreateCustomerChoice(bank: Bank, name: string, id: int) returns (outcome: Outcome)
    requires bank.Valid()
    modifies bank
    ensures bank.Valid()
    ensures fresh(bank.Repr() - old(bank.Repr()))
    ensures CreateCustomerStep(old(bank.View()), name, id) == Reply(bank.View(), outcome)
  {
    bank.CreateCustomer(name, id);
    outcome := CustomerCreated;
  }

  /** `customer.createAccount(number, initial)` on the customer at index `i`. */
  method AddAccount(bank: Bank, ghost i: nat, customer: Customer, number: int, initial: int)
    requires bank.Valid() && i < |bank.customers| && customer == bank.customers[i]
    modifies customer
    ensures bank.Valid()
    ensures fresh(bank.Repr() - old(bank.Repr()))
    ensures var c := old(bank.View()).customers[i];
      bank.View() == BankState(old(bank.View()).customers[i := c.(accounts := c.accounts + [NewAccount(number, initial)])])
  {
    forall j | 0 <= j < |bank.customers| && j != i ensures bank.customers[j] != customer {
      CustomersDiffer(bank, i, j);
    }
    ghost var n := |customer.accounts|;
    customer.CreateAccount(number, initial);
    ghost var a := customer.accounts[n];
    assert customer.accounts == old(customer.accounts) + [a];
    AccountAppended(bank, i, a);
  }

  /** Choice 2. */
  method CreateAccountChoice(bank: Bank, cid: int, number: int, initial: int) returns (outcome: Outcome)
    requires bank.Valid()
    modifies bank.customers
    ensures bank.Valid()
    ensures fresh(bank.Repr() - old(bank.Repr()))
    ensures CreateAccountStep(old(bank.View()), cid, number, initial) == Reply(bank.View(), outcome)
  {
    ghost var b := bank.View();
    var customer := bank.GetCustomer(cid);
    assert bank.View() == b;
    IDsOfView(bank);
    if customer == null {
      outcome := CustomerNotFound;
    } else {
      ghost var i := FirstMatch(CustomerIDs(b.customers), cid).value;
      assert i < |bank.customers| && customer == bank.customers[i];
      AddAccount(bank, i, customer, number, initial);
      outcome := AccountCreated;
    }
  }

  /** Choice 3. */
  method DepositChoice(bank: Bank, cid: int, number: int, amount: int) returns (outcome: Outcome)
    requires bank.Valid()
    modifies bank.Accounts()
    ensures bank.Valid() && bank.Repr() == old(bank.Repr())
    ensures DepositStep(old(bank.View()), cid, number, amount) == Reply(bank.View(), outcome)
  {
    ghost var b := bank.View();
    var customer, account := FindAccount(bank, cid, number);
    assert bank.View() == b;
    if customer == null {
      outcome := CustomerNotFound;
    } else if account == null {
      outcome := AccountNotFound;
    } else {
      ghost var loc := Locate(bank.View(), cid, number).loc;
      label before:
      account.Deposit(amount);
      outcome := DepositDone(account.balance);
      OneAccountChanged@before(bank, loc);
    }
  }

  /** Choice 4. */
  method WithdrawChoice(bank: Bank, cid: int, number: int, amount: int) returns (outcome: Outcome)
    requires bank.Valid()
    modifies bank.Accounts()
    ensures bank.Valid() && bank.Repr() == old(bank.Repr())
    ensures WithdrawStep(old(bank.View()), cid, number, amount) == Reply(bank.View(), outcome)
  {
    ghost var b := bank.View();
    var customer, account := FindAccount(bank, cid, number);
    assert bank.View() == b;
    if customer == null {
      outcome := CustomerNotFound;
    } else if account == null {
      outcome := AccountNotFound;
    } else {
      ghost var loc := Locate(b, cid, number).loc;
      label before:
      var ok := account.Withdraw(amount);
      outcome := if ok then WithdrawalDone(account.balance) else InsufficientBalance;
      OneAccountChanged@before(bank, loc);
      if !ok {
        WithSameAccount(b, loc);
      }
    }
  }

  /**
   * The lookups of choice 5: both customers first, and both accounts only when both
   * customers were found.
   */
  method FindEnds(bank: Bank, fromID: int, fromNumber: int, toID: int, toNumber: int)
    returns (fromCustomer: Customer?, toCustomer: Customer?, from: Account?, to: Account?)
    ensures fromCustomer == null || toCustomer == null <==>
      LocateEnds(bank.View(), fromID, fromNumber, toID, toNumber).CustomerMissing?
    ensures from == null || to == null <==> !LocateEnds(bank.View(), fromID, fromNumber, toID, toNumber).Both?
    ensures match LocateEnds(bank.View(), fromID, fromNumber, toID, toNumber)
      case Both(fl, tl) =>
        fl.customer < |bank.customers| && fl.account < |bank.customers[fl.customer].accounts| &&
        tl.customer < |bank.customers| && tl.account < |bank.customers[tl.customer].accounts| &&
        from == bank.At(fl) && to == bank.At(tl)
      case _ => true
  {
    from, to := null, null;
    fromCustomer := bank.GetCustomer(fromID);
    toCustomer := bank.GetCustomer(toID);
    if fromCustomer != null && toCustomer != null {
      from := fromCustomer.GetAccount(fromNumber);
      to := toCustomer.GetAccount(toNumber);
      NumbersOfState(fromCustomer);
      NumbersOfState(toCustomer);
    }
    IDsOfView(bank);
  }

  /** `from.transfer(to, amount)` on the accounts found at the two locations of the view. */
  method TransferAt(bank: Bank, ghost fl: Location, ghost tl: Location, from: Account, to: Account, amount: int)
    returns (ok: bool)
    requires bank.Valid()
    requires fl.customer < |bank.customers| && fl.account < |bank.customers[fl.customer].accounts|
    requires tl.customer < |bank.customers| && tl.account < |bank.customers[tl.customer].accounts|
    requires from == bank.At(fl) && to == bank.At(tl)
    modifies from, to
    ensures bank.Valid() && bank.Repr() == old(bank.Repr())
    ensures ValidLocation(old(bank.View()), fl) && ValidLocation(old(bank.View()), tl)
    ensures ok <==> amount <= AccountAt(old(bank.View()), fl).balance
    ensures bank.View() == Transferred(old(bank.View()), fl, tl, amount)
  {
    if fl != tl {
      DistinctAt(bank, fl, tl);
    }
    ok := from.Transfer(to, amount);
    TransferView(bank, fl, tl, amount);
  }

  /** Choice 5: both customers are looked up first, then both accounts, then the transfer. */
  method TransferChoice(bank: Bank, fromID: int, fromNumber: int, toID: int, toNumber: int, amount: int)
    returns (outcome: Outcome)
    requires bank.Valid()
    modifies bank.Accounts()
    ensures bank.Valid() && bank.Repr() == old(bank.Repr())
    ensures TransferStep(old(bank.View()), fromID, fromNumber, toID, toNumber, amount) == Reply(bank.View(), outcome)
  {
    ghost var b := bank.View();
    var fromCustomer, toCustomer, from, to := FindEnds(bank, fromID, fromNumber, toID, toNumber);
    assert bank.View() == b;
    if fromCustomer == null || toCustomer == null {
      outcome := CustomersMissing;
    } else if from == null || to == null {
      outcome := AccountsMissing;
    } else {
      ghost var ends := LocateEnds(b, fromID, fromNumber, toID, toNumber);
      var ok := TransferAt(bank, ends.from, ends.to, from, to, amount);
      outcome := if ok then TransferDone else TransferRefused;
    }
  }

  /** Choice 6. */
  method DisplayAccountInfoChoice(bank: Bank, cid: int) returns (outcome: Outcome)
    ensures DisplayAccountInfoStep(bank.View(), cid).outcome == outcome
  {
    var customer := bank.GetCustomer(cid);
    IDsOfView(bank);
    if customer == null {
      outcome := CustomerNotFound;
    } else {
      outcome := CustomerInfo(customer.State());
    }
  }

  /** Choice 7. */
  method DisplayHistoryChoice(bank: Bank, cid: int, number: int) returns (outcome: Outcome)
    ensures DisplayHistoryStep(bank.View(), cid, number).outcome == outcome
  {
    var customer, account := FindAccount(bank, cid, number);
    if customer == null {
      outcome := CustomerNotFound;
    } else if account == null {
      outcome := AccountNotFound;
    } else {
      outcome := History(account.transactions);
    }
  }

  /** Choices 1 and 2, which add a customer or an account. */
  method DispatchCreate(bank: Bank, cmd: Command) returns (outcome: Outcome)
    requires bank.Valid() && (cmd.CreateCustomer? || cmd.CreateAccount?)
    modifies bank, bank.customers
    ensures bank.Valid()
    ensures fresh(bank.Repr() - old(bank.Repr()))
    ensures Step(old(bank.View()), cmd) == Reply(bank.View(), outcome)
  {
    if cmd.CreateCustomer? {
      outcome := CreateCustomerChoice(bank, cmd.name, cmd.customerID);
    } else {
      outcome := CreateAccountChoice(bank, cmd.customerID, cmd.accountNumber, cmd.initialBalance);
    }
  }

  /** Choices 3, 4 and 5, which change account objects only. */
  method DispatchMoney(bank: Bank, cmd: Command) returns (outcome: Outcome)
    requires bank.Valid() && (cmd.DepositTo? || cmd.WithdrawFrom? || cmd.TransferFunds?)
    modifies bank.Accounts()
    ensures bank.Valid() && bank.Repr() == old(bank.Repr())
    ensures Step(old(bank.View()), cmd) == Reply(bank.View(), outcome)
  {
    match cmd
    case DepositTo(cid, number, amount) =>
      outcome := DepositChoice(bank, cid, number, amount);
    case WithdrawFrom(cid, number, amount) =>
      outcome := WithdrawChoice(bank, cid, number, amount);
    case TransferFunds(fromID, fromNumber, toID, toNumber, amount) =>
      outcome := TransferChoice(bank, fromID, fromNumber, toID, toNumber, amount);
  }

  /** Choices 6, 7 and 8 and an invalid choice, which change nothing. */
  method DispatchQuery(bank: Bank, cmd: Command) returns (outcome: Outcome)
    requires cmd.DisplayAccountInfo? || cmd.DisplayHistory? || cmd.Exit? || cmd.Unknown?
    ensures Step(bank.View(), cmd) == Reply(bank.View(), outcome)
  {
    match cmd
    case DisplayAccountInfo(cid) =>
      outcome := DisplayAccountInfoChoice(bank, cid);
    case DisplayHistory(cid, number) =>
      outcome := DisplayHistoryChoice(bank, cid, number);
    case Exit =>
      outcome := Exiting;
    case Unknown(_) =>
      outcome := InvalidChoice;
  }

  /** One iteration of the console loop: the choice `cmd`, dispatched on `bank`. */
  method Dispatch(bank: Bank, cmd: Command) returns (outcome: Outcome)
    requires bank.Valid()
    modifies bank.Repr()
    ensures bank.Valid()
    ensures fresh(bank.Repr() - old(bank.Repr()))
    ensures Step(old(bank.View()), cmd) == Reply(bank.View(), outcome)
  {
    if cmd.CreateCustomer? || cmd.CreateAccount? {
      assert forall c | c in bank.customers :: c in bank.Repr();
      outcome := DispatchCreate(bank, cmd);
    } else if cmd.DepositTo? || cmd.WithdrawFrom? || cmd.TransferFunds? {
      outcome := DispatchMoney(bank, cmd);
    } else {
      outcome := DispatchQuery(bank, cmd);
    }
  }

  /**
   * One turn of the console loop inside a run of `cmds`: choice `i` is dispatched, and the
   * run seen so far (`done` and the run of `cmds[i..]`) either ends with it or goes on
   * with `cmds[i + 1..]`.
   */
  method Turn(bank: Bank, cmds: seq<Command>, i: nat, ghost done: seq<Outcome>, ghost whole: Session)
    returns (outcome: Outcome)
    requires bank.Valid() && i < |cmds|
    requires whole == Session(Run(bank.View(), cmds[i..]).bank, done + Run(bank.View(), cmds[i..]).outcomes)
    modifies bank.Repr()
    ensures bank.Valid()
    ensures fresh(bank.Repr() - old(bank.Repr()))
    ensures cmds[i].Exit? ==> whole == Session(bank.View(), done + [outcome])
    ensures !cmds[i].Exit? ==>
      whole == Session(Run(bank.View(), cmds[i + 1..]).bank, (done + [outcome]) + Run(bank.View(), cmds[i + 1..]).outcomes)
  {
    ghost var b := bank.View();
    outcome := Dispatch(bank, cmds[i]);
    RunAdvance(b, cmds[i..], bank.View(), outcome, done, whole);
    assert cmds[i..][1..] == cmds[i + 1..];
  }

  /**
   * The console loop over a given sequence of choices: each is dispatched in turn, and
   * the loop leaves right after Exit. Running out of choices stands for the end of input.
   */
  method RunCommands(bank: Bank, cmds: seq<Command>) returns (outcomes: seq<Outcome>)
    requires bank.Valid()
    modifies bank.Repr()
    ensures bank.Valid()
    ensures fresh(bank.Repr() - old(bank.Repr()))
    ensures Run(old(bank.View()), cmds) == Session(bank.View(), outcomes)
  {
    outcomes := [];
    var i := 0;
    ghost var whole := Run(bank.View(), cmds);
    ghost var repr0 := bank.Repr();
    ghost var added: set<object> := {};
    while i < |cmds|
      invariant 0 <= i <= |cmds|
      invariant bank.Valid()
      invariant fresh(added) && bank.Repr() <= repr0 + added
      invariant whole == Session(Run(bank.View(), cmds[i..]).bank, outcomes + Run(bank.View(), cmds[i..]).outcomes)
      decreases |cmds| - i
    {
      ghost var repr1 := bank.Repr();
      var outcome := Turn(bank, cmds, i, outcomes, whole);
      ghost var repr2 := bank.Repr();
      added := added + (repr2 - repr1);
      outcomes := outcomes + [outcome];
      if cmds[i].Exit? {
        return;
      }
      i := i + 1;
    }
  }
}
