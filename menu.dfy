/**
 * The console loop of the program as a function on bank states: one menu choice, with
 * all the fields it may read, changes the bank and reports an outcome. Console I/O is
 * left out: a choice arrives already read as a `Command`, and what would be printed is
 * the `Outcome`. Module Console runs the same dispatch on the objects of module Banking and
 * is proved against `Step` and `Run` here.
 */
module Menu {
  import opened Wrappers
  import opened Ledger

  /**
   * A menu choice with every field it may read, in the order it asks for them. The program
   * asks for a later field only once the lookups before it succeed; a `Command` carries them
   * all, and a choice that fails ignores the fields it would not have asked for.
   * `Unknown` stands for a number other than 1 to 8 (see `KnownChoice`).
   */
  datatype Command =
    | CreateCustomer(name: string, customerID: int)                                    // choice 1
    | CreateAccount(customerID: int, accountNumber: int, initialBalance: int)          // choice 2
    | DepositTo(customerID: int, accountNumber: int, amount: int)                      // choice 3
    | WithdrawFrom(customerID: int, accountNumber: int, amount: int)                   // choice 4
    | TransferFunds(fromCustomerID: int, fromAccountNumber: int,
                    toCustomerID: int, toAccountNumber: int, amount: int)              // choice 5
    | DisplayAccountInfo(customerID: int)                                              // choice 6
    | DisplayHistory(customerID: int, accountNumber: int)                              // choice 7
    | Exit                                                                             // choice 8
    | Unknown(choice: int)                                                             // any other number

  /** What a menu choice reports; the display choices carry the data they show. */
  datatype Outcome =
    | CustomerCreated
    | AccountCreated
    | CustomerNotFound
    | AccountNotFound
    | DepositDone(newBalance: int)
    | WithdrawalDone(newBalance: int)
    | InsufficientBalance
    | TransferDone
    | TransferRefused
    | CustomersMissing
    | AccountsMissing
    | CustomerInfo(customer: CustomerState)
    | History(log: seq<Transaction>)
    | Exiting
    | InvalidChoice

  datatype Reply = Reply(next: BankState, outcome: Outcome)

  /** A command the menu can produce: `Unknown` never carries one of the numbers 1 to 8. */
  predicate KnownChoice(cmd: Command)
  {
    cmd.Unknown? ==> !(1 <= cmd.choice <= 8)
  }

  // ---------------------------------------------------------------------------
  // Lookups as the choices chain them
  // ---------------------------------------------------------------------------

  /** A customer by ID and then one of its accounts by number, as choices 3, 4 and 7 look them up. */
  datatype Lookup = NoCustomer | NoAccount(customer: nat) | Found(loc: Location)

  function Locate(b: BankState, customerID: int, accountNumber: int): (r: Lookup)
    ensures r.NoCustomer? <==> customerID !in CustomerIDs(b.customers)
    ensures r.NoAccount? ==> (
      r.customer < |b.customers| &&
      FirstMatch(CustomerIDs(b.customers), customerID) == Some(r.customer) &&
      accountNumber !in AccountNumbers(b.customers[r.customer].accounts))
    ensures r.Found? ==> (
      ValidLocation(b, r.loc) &&
      FirstMatch(CustomerIDs(b.customers), customerID) == Some(r.loc.customer) &&
      FirstMatch(AccountNumbers(b.customers[r.loc.customer].accounts), accountNumber) == Some(r.loc.account))
  {
    match FirstMatch(CustomerIDs(b.customers), customerID)
    case None => NoCustomer
    case Some(i) =>
      match FirstMatch(AccountNumbers(b.customers[i].accounts), accountNumber)
      case None => NoAccount(i)
      case Some(k) => Found(Location(i, k))
  }

  /** Both ends of a transfer: both customers are looked up first, then both accounts. */
  datatype Ends = CustomerMissing | AccountMissing | Both(from: Location, to: Location)

  function LocateEnds(b: BankState, fromID: int, fromNumber: int, toID: int, toNumber: int): (r: Ends)
    ensures r.CustomerMissing? <==> fromID !in CustomerIDs(b.customers) || toID !in CustomerIDs(b.customers)
    ensures r.AccountMissing? <==>
      fromID in CustomerIDs(b.customers) && toID in CustomerIDs(b.customers) &&
      (fromNumber !in AccountNumbers(b.customers[FirstMatch(CustomerIDs(b.customers), fromID).value].accounts) ||
       toNumber !in AccountNumbers(b.customers[FirstMatch(CustomerIDs(b.customers), toID).value].accounts))
    ensures r.Both? ==> (
      ValidLocation(b, r.from) && ValidLocation(b, r.to) &&
      Locate(b, fromID, fromNumber) == Found(r.from) &&
      Locate(b, toID, toNumber) == Found(r.to))
  {
    var fi := FirstMatch(CustomerIDs(b.customers), fromID);
    var ti := FirstMatch(CustomerIDs(b.customers), toID);
    if fi.None? || ti.None? then CustomerMissing
    else
      var fk := FirstMatch(AccountNumbers(b.customers[fi.value].accounts), fromNumber);
      var tk := FirstMatch(AccountNumbers(b.customers[ti.value].accounts), toNumber);
      if fk.None? || tk.None? then AccountMissing
      else Both(Location(fi.value, fk.value), Location(ti.value, tk.value))
  }

  // ---------------------------------------------------------------------------
  // The choices
  // ---------------------------------------------------------------------------

  /** Choice 1: the customer is appended, with no check for an ID already in use. */
  function CreateCustomerStep(b: BankState, name: string, id: int): Reply
  {
    Reply(BankState(b.customers + [CustomerState(name, id, [])]), CustomerCreated)
  }

  /** Choice 2: the account is appended to the first customer with that ID, with no check for a number in use. */
  function CreateAccountStep(b: BankState, cid: int, number: int, initial: int): Reply
  {
    match FirstMatch(CustomerIDs(b.customers), cid)
    case None => Reply(b, CustomerNotFound)
    case Some(i) =>
      var c := b.customers[i];
      Reply(BankState(b.customers[i := c.(accounts := c.accounts + [NewAccount(number, initial)])]), AccountCreated)
  }

  /** Choice 3. */
  function DepositStep(b: BankState, cid: int, number: int, amount: int): Reply
  {
    match Locate(b, cid, number)
    case NoCustomer => Reply(b, CustomerNotFound)
    case NoAccount(_) => Reply(b, AccountNotFound)
    case Found(l) =>
      var a := Deposited(AccountAt(b, l), amount);
      Reply(WithAccount(b, l, a), DepositDone(a.balance))
  }

  /** Choice 4. */
  function WithdrawStep(b: BankState, cid: int, number: int, amount: int): Reply
  {
    match Locate(b, cid, number)
    case NoCustomer => Reply(b, CustomerNotFound)
    case NoAccount(_) => Reply(b, AccountNotFound)
    case Found(l) =>
      var a := Withdrawn(AccountAt(b, l), amount);
      if amount > AccountAt(b, l).balance then Reply(b, InsufficientBalance)
      else Reply(WithAccount(b, l, a), WithdrawalDone(a.balance))
  }

  /** Choice 5. */
  function TransferStep(b: BankState, fromID: int, fromNumber: int, toID: int, toNumber: int, amount: int): Reply
  {
    match LocateEnds(b, fromID, fromNumber, toID, toNumber)
    case CustomerMissing => Reply(b, CustomersMissing)
    case AccountMissing => Reply(b, AccountsMissing)
    case Both(from, to) =>
      if amount > AccountAt(b, from).balance then Reply(b, TransferRefused)
      else Reply(Transferred(b, from, to, amount), TransferDone)
  }

  /** Choice 6. */
  function DisplayAccountInfoStep(b: BankState, cid: int): Reply
  {
    match FirstMatch(CustomerIDs(b.customers), cid)
    case None => Reply(b, CustomerNotFound)
    case Some(i) => Reply(b, CustomerInfo(b.customers[i]))
  }

  /** Choice 7. */
  function DisplayHistoryStep(b: BankState, cid: int, number: int): Reply
  {
    match Locate(b, cid, number)
    case NoCustomer => Reply(b, CustomerNotFound)
    case NoAccount(_) => Reply(b, AccountNotFound)
    case Found(l) => Reply(b, History(AccountAt(b, l).log))
  }

  /** The effect of one menu choice on the bank, and what it reports. */
  function Step(b: BankState, cmd: Command): Reply
  {
    match cmd
    case CreateCustomer(name, id) => CreateCustomerStep(b, name, id)
    case CreateAccount(cid, number, initial) => CreateAccountStep(b, cid, number, initial)
    case DepositTo(cid, number, amount) => DepositStep(b, cid, number, amount)
    case WithdrawFrom(cid, number, amount) => WithdrawStep(b, cid, number, amount)
    case TransferFunds(fromID, fromNumber, toID, toNumber, amount) =>
      TransferStep(b, fromID, fromNumber, toID, toNumber, amount)
    case DisplayAccountInfo(cid) => DisplayAccountInfoStep(b, cid)
    case DisplayHistory(cid, number) => DisplayHistoryStep(b, cid, number)
    case Exit => Reply(b, Exiting)
    case Unknown(_) => Reply(b, InvalidChoice)
  }

  /** The number typed at the menu for a command. */
  function MenuNumber(cmd: Command): int
  {
    match cmd
    case CreateCustomer(_, _) => 1
    case CreateAccount(_, _, _) => 2
    case DepositTo(_, _, _) => 3
    case WithdrawFrom(_, _, _) => 4
    case TransferFunds(_, _, _, _, _) => 5
    case DisplayAccountInfo(_) => 6
    case DisplayHistory(_, _) => 7
    case Exit => 8
    case Unknown(choice) => choice
  }

  /** "Invalid choice" is reported exactly for a number off the menu, and the bank is kept. */
  lemma InvalidExactlyOffMenu(b: BankState, cmd: Command)
    requires KnownChoice(cmd)
    ensures Step(b, cmd).outcome == InvalidChoice <==> !(1 <= MenuNumber(cmd) <= 8)
    ensures Step(b, cmd).outcome == InvalidChoice ==> Step(b, cmd).next == b
  {
  }

  // ---------------------------------------------------------------------------
  // Failures change nothing
  // ---------------------------------------------------------------------------

  /** The outcomes that report success of a choice that changes the bank. */
  predicate Changes(o: Outcome)
  {
    o.CustomerCreated? || o.AccountCreated? || o.DepositDone? || o.WithdrawalDone? || o.TransferDone?
  }

  /**
   * Every choice that fails (a customer or account not found, insufficient balance), every
   * display choice, Exit and an unknown choice leave the bank exactly as it was.
   */
  lemma StepUnchangedUnlessChanged(b: BankState, cmd: Command)
    ensures !Changes(Step(b, cmd).outcome) ==> Step(b, cmd).next == b
  {
  }

  /**
   * The choices fail exactly when the program's lookups fail: a customer ID that no
   * customer has, an account number the first customer with that ID does not have, and
   * for a transfer either of two customers, after them either of two accounts.
   */
  lemma StepNotFound(b: BankState, cmd: Command)
    ensures cmd.DepositTo? || cmd.WithdrawFrom? || cmd.DisplayHistory? ==> (
      (Step(b, cmd).outcome == CustomerNotFound <==> cmd.customerID !in CustomerIDs(b.customers)) &&
      (Step(b, cmd).outcome == AccountNotFound <==>
        cmd.customerID in CustomerIDs(b.customers) &&
        cmd.accountNumber !in AccountNumbers(b.customers[FirstMatch(CustomerIDs(b.customers), cmd.customerID).value].accounts)))
    ensures cmd.CreateAccount? || cmd.DisplayAccountInfo? ==>
      (Step(b, cmd).outcome == CustomerNotFound <==> cmd.customerID !in CustomerIDs(b.customers))
    ensures cmd.TransferFunds? ==>
      (Step(b, cmd).outcome == CustomersMissing <==>
        cmd.fromCustomerID !in CustomerIDs(b.customers) || cmd.toCustomerID !in CustomerIDs(b.customers))
    ensures cmd.TransferFunds? ==>
      (Step(b, cmd).outcome == AccountsMissing <==>
        cmd.fromCustomerID in CustomerIDs(b.customers) && cmd.toCustomerID in CustomerIDs(b.customers) &&
        (cmd.fromAccountNumber !in
           AccountNumbers(b.customers[FirstMatch(CustomerIDs(b.customers), cmd.fromCustomerID).value].accounts) ||
         cmd.toAccountNumber !in
           AccountNumbers(b.customers[FirstMatch(CustomerIDs(b.customers), cmd.toCustomerID).value].accounts)))
  {
    match cmd
    case DepositTo(cid, number, _) =>
      assert Step(b, cmd).outcome.CustomerNotFound? <==> Locate(b, cid, number).NoCustomer?;
    case WithdrawFrom(cid, number, _) =>
      assert Step(b, cmd).outcome.CustomerNotFound? <==> Locate(b, cid, number).NoCustomer?;
    case DisplayHistory(cid, number) =>
      assert Step(b, cmd).outcome.CustomerNotFound? <==> Locate(b, cid, number).NoCustomer?;
    case _ =>
  }

  // ---------------------------------------------------------------------------
  // Exact effects on money and on the number of transactions
  // ---------------------------------------------------------------------------

  /** The number of transactions a choice records: one for a deposit or withdrawal, two for a transfer. */
  function Recorded(o: Outcome): nat
  {
    match o
    case DepositDone(_) => 1
    case WithdrawalDone(_) => 1
    case TransferDone => 2
    case _ => 0
  }

  /** The change in the money held by the bank: a new account adds its initial balance. */
  function BalanceDelta(cmd: Command, o: Outcome): int
  {
    match cmd
    case CreateAccount(_, _, initial) => if o.AccountCreated? then initial else 0
    case DepositTo(_, _, amount) => if o.DepositDone? then amount else 0
    case WithdrawFrom(_, _, amount) => if o.WithdrawalDone? then -amount else 0
    case _ => 0
  }

  lemma CreateCustomerAccounting(b: BankState, name: string, id: int)
    ensures var r := CreateCustomerStep(b, name, id);
      TransactionCount(r.next) == TransactionCount(b) && TotalBalance(r.next) == TotalBalance(b)
  {
    BankSumAppend(b.customers, CustomerState(name, id, []), Balance);
    BankSumAppend(b.customers, CustomerState(name, id, []), LogLength);
  }

  lemma CreateAccountAccounting(b: BankState, cid: int, number: int, initial: int)
    ensures var r := CreateAccountStep(b, cid, number, initial);
      TransactionCount(r.next) == TransactionCount(b) &&
      TotalBalance(r.next) == TotalBalance(b) + (if r.outcome.AccountCreated? then initial else 0)
  {
    match FirstMatch(CustomerIDs(b.customers), cid)
    case None =>
    case Some(i) =>
      var c := b.customers[i];
      var c' := c.(accounts := c.accounts + [NewAccount(number, initial)]);
      SumOfAppend(c.accounts, NewAccount(number, initial), Balance);
      SumOfAppend(c.accounts, NewAccount(number, initial), LogLength);
      BankSumUpdate(b.customers, i, c', Balance);
      BankSumUpdate(b.customers, i, c', LogLength);
  }

  lemma DepositAccounting(b: BankState, cid: int, number: int, amount: int)
    ensures var r := DepositStep(b, cid, number, amount);
      TransactionCount(r.next) == TransactionCount(b) + Recorded(r.outcome) &&
      TotalBalance(r.next) == TotalBalance(b) + (if r.outcome.DepositDone? then amount else 0)
  {
    match Locate(b, cid, number)
    case NoCustomer =>
    case NoAccount(_) =>
    case Found(l) =>
      WithAccountSum(b, l, Deposited(AccountAt(b, l), amount), Balance);
      WithAccountSum(b, l, Deposited(AccountAt(b, l), amount), LogLength);
  }

  lemma WithdrawAccounting(b: BankState, cid: int, number: int, amount: int)
    ensures var r := WithdrawStep(b, cid, number, amount);
      TransactionCount(r.next) == TransactionCount(b) + Recorded(r.outcome) &&
      TotalBalance(r.next) == TotalBalance(b) - (if r.outcome.WithdrawalDone? then amount else 0)
  {
    match Locate(b, cid, number)
    case NoCustomer =>
    case NoAccount(_) =>
    case Found(l) =>
      WithAccountSum(b, l, Withdrawn(AccountAt(b, l), amount), Balance);
      WithAccountSum(b, l, Withdrawn(AccountAt(b, l), amount), LogLength);
  }

  lemma TransferAccounting(b: BankState, fromID: int, fromNumber: int, toID: int, toNumber: int, amount: int)
    ensures var r := TransferStep(b, fromID, fromNumber, toID, toNumber, amount);
      TransactionCount(r.next) == TransactionCount(b) + Recorded(r.outcome) &&
      TotalBalance(r.next) == TotalBalance(b)
  {
    match LocateEnds(b, fromID, fromNumber, toID, toNumber)
    case CustomerMissing =>
    case AccountMissing =>
    case Both(from, to) =>
      TransferConservesTotal(b, from, to, amount);
      if amount <= AccountAt(b, from).balance {
        TransferRecordsTwo(b, from, to, amount);
      }
  }

  /**
   * Every choice changes the number of recorded transactions and the money held by the
   * bank by exactly what it reports: a deposit adds one entry and its amount, a withdrawal
   * one entry and minus its amount, a transfer two entries and nothing, a new account no
   * entry and its initial balance, everything else nothing at all.
   */
  lemma StepAccounting(b: BankState, cmd: Command)
    ensures var r := Step(b, cmd);
      TransactionCount(r.next) == TransactionCount(b) + Recorded(r.outcome) &&
      TotalBalance(r.next) == TotalBalance(b) + BalanceDelta(cmd, r.outcome)
  {
    match cmd
    case CreateCustomer(name, id) => CreateCustomerAccounting(b, name, id);
    case CreateAccount(cid, number, initial) => CreateAccountAccounting(b, cid, number, initial);
    case DepositTo(cid, number, amount) => DepositAccounting(b, cid, number, amount);
    case WithdrawFrom(cid, number, amount) => WithdrawAccounting(b, cid, number, amount);
    case TransferFunds(fromID, fromNumber, toID, toNumber, amount) =>
      TransferAccounting(b, fromID, fromNumber, toID, toNumber, amount);
    case _ =>
  }

  // ---------------------------------------------------------------------------
  // Append-only structure and logs
  // ---------------------------------------------------------------------------

  /** `b'` keeps every customer and account of `b` in place and only appends to their logs. */
  ghost predicate Extends(b: BankState, b': BankState)
  {
    |b.customers| <= |b'.customers| &&
    forall i :: 0 <= i < |b.customers| ==>
      b'.customers[i].name == b.customers[i].name &&
      b'.customers[i].id == b.customers[i].id &&
      |b.customers[i].accounts| <= |b'.customers[i].accounts| &&
      forall k :: 0 <= k < |b.customers[i].accounts| ==>
        b'.customers[i].accounts[k].number == b.customers[i].accounts[k].number &&
        b.customers[i].accounts[k].log <= b'.customers[i].accounts[k].log
  }

  lemma ExtendsTransitive(b0: BankState, b1: BankState, b2: BankState)
    requires Extends(b0, b1) && Extends(b1, b2)
    ensures Extends(b0, b2)
  {
    forall i, k | 0 <= i < |b0.customers| && 0 <= k < |b0.customers[i].accounts|
      ensures b0.customers[i].accounts[k].log <= b2.customers[i].accounts[k].log
    {
      assert b1.customers[i].accounts[k].log <= b2.customers[i].accounts[k].log;
    }
  }

  lemma ExtendsByAccount(b: BankState, l: Location, a: AccountState)
    requires ValidLocation(b, l)
    requires a.number == AccountAt(b, l).number && AccountAt(b, l).log <= a.log
    ensures Extends(b, WithAccount(b, l, a))
  {
    var r := WithAccount(b, l, a);
    forall i, k | 0 <= i < |b.customers| && 0 <= k < |b.customers[i].accounts|
      ensures r.customers[i].accounts[k].number == b.customers[i].accounts[k].number
      ensures b.customers[i].accounts[k].log <= r.customers[i].accounts[k].log
    {
      assert AccountAt(r, Location(i, k)) == if Location(i, k) == l then a else AccountAt(b, Location(i, k));
    }
  }

  lemma TransferExtends(b: BankState, from: Location, to: Location, amount: int)
    requires ValidLocation(b, from) && ValidLocation(b, to)
    ensures Extends(b, Transferred(b, from, to, amount))
  {
    var src := AccountAt(b, from);
    if amount <= src.balance {
      var b1 := WithAccount(b, from, Withdrawn(src, amount));
      ExtendsByAccount(b, from, Withdrawn(src, amount));
      ExtendsByAccount(b1, to, Deposited(AccountAt(b1, to), amount));
      ExtendsTransitive(b, b1, Transferred(b, from, to, amount));
    } else {
      assert Extends(b, b);
    }
  }

  lemma CreateAccountExtends(b: BankState, cid: int, number: int, initial: int)
    ensures Extends(b, CreateAccountStep(b, cid, number, initial).next)
  {
    var r := CreateAccountStep(b, cid, number, initial).next;
    forall i, k | 0 <= i < |b.customers| && 0 <= k < |b.customers[i].accounts|
      ensures r.customers[i].accounts[k] == b.customers[i].accounts[k]
    {
    }
  }

  /** A deposit only appends to the log of the account it finds; every other account is untouched. */
  lemma DepositExtends(b: BankState, cid: int, number: int, amount: int)
    ensures Extends(b, DepositStep(b, cid, number, amount).next)
    ensures var r := DepositStep(b, cid, number, amount).next;
      forall m | ValidLocation(b, m) && !(Locate(b, cid, number).Found? && Locate(b, cid, number).loc == m) ::
        ValidLocation(r, m) && AccountAt(r, m) == AccountAt(b, m)
  {
    match Locate(b, cid, number)
    case NoCustomer =>
    case NoAccount(_) =>
    case Found(l) => ExtendsByAccount(b, l, Deposited(AccountAt(b, l), amount));
  }

  /** A withdrawal only appends to the log of the account it finds; every other account is untouched. */
  lemma WithdrawExtends(b: BankState, cid: int, number: int, amount: int)
    ensures Extends(b, WithdrawStep(b, cid, number, amount).next)
    ensures var r := WithdrawStep(b, cid, number, amount).next;
      forall m | ValidLocation(b, m) && !(Locate(b, cid, number).Found? && Locate(b, cid, number).loc == m) ::
        ValidLocation(r, m) && AccountAt(r, m) == AccountAt(b, m)
  {
    match Locate(b, cid, number)
    case NoCustomer =>
    case NoAccount(_) =>
    case Found(l) => ExtendsByAccount(b, l, Withdrawn(AccountAt(b, l), amount));
  }

  lemma TransferStepExtends(b: BankState, fromID: int, fromNumber: int, toID: int, toNumber: int, amount: int)
    ensures Extends(b, TransferStep(b, fromID, fromNumber, toID, toNumber, amount).next)
  {
    match LocateEnds(b, fromID, fromNumber, toID, toNumber)
    case CustomerMissing =>
    case AccountMissing =>
    case Both(from, to) => TransferExtends(b, from, to, amount);
  }

  /**
   * No choice removes or reorders customers or accounts, changes a name, ID or account
   * number, or alters an entry already in a log: logs are append-only.
   */
  lemma StepExtends(b: BankState, cmd: Command)
    ensures Extends(b, Step(b, cmd).next)
  {
    match cmd
    case CreateAccount(cid, number, initial) => CreateAccountExtends(b, cid, number, initial);
    case DepositTo(cid, number, amount) => DepositExtends(b, cid, number, amount);
    case WithdrawFrom(cid, number, amount) => WithdrawExtends(b, cid, number, amount);
    case TransferFunds(fromID, fromNumber, toID, toNumber, amount) =>
      TransferStepExtends(b, fromID, fromNumber, toID, toNumber, amount);
    case _ =>
  }

  // ---------------------------------------------------------------------------
  // Duplicate keys: the first one wins
  // ---------------------------------------------------------------------------

  /**
   * Creating a customer whose ID is already taken adds it at the end, where a lookup never
   * reaches it: every ID is found afterwards at the same place as before, and only an ID
   * that was absent is found at the new customer.
   */
  lemma CreateCustomerLookup(b: BankState, name: string, id: int, key: int)
    ensures var b' := Step(b, CreateCustomer(name, id)).next;
      FirstMatch(CustomerIDs(b'.customers), key) ==
        if key in CustomerIDs(b.customers) then FirstMatch(CustomerIDs(b.customers), key)
        else if key == id then Some(|b.customers|)
        else None
  {
    var b' := Step(b, CreateCustomer(name, id)).next;
    assert CustomerIDs(b'.customers) == CustomerIDs(b.customers) + [id];
    FirstMatchAppend(CustomerIDs(b.customers), id, key);
  }

  /** The same for account numbers within the customer that receives a new account. */
  lemma CreateAccountLookup(b: BankState, cid: int, number: int, initial: int, key: int)
    requires cid in CustomerIDs(b.customers)
    ensures var i := FirstMatch(CustomerIDs(b.customers), cid).value;
      var b' := Step(b, CreateAccount(cid, number, initial)).next;
      |b'.customers| == |b.customers| &&
      FirstMatch(AccountNumbers(b'.customers[i].accounts), key) ==
        if key in AccountNumbers(b.customers[i].accounts) then FirstMatch(AccountNumbers(b.customers[i].accounts), key)
        else if key == number then Some(|b.customers[i].accounts|)
        else None
  {
    var i := FirstMatch(CustomerIDs(b.customers), cid).value;
    var b' := Step(b, CreateAccount(cid, number, initial)).next;
    var c := b.customers[i];
    assert b'.customers[i].accounts == c.accounts + [NewAccount(number, initial)];
    assert AccountNumbers(b'.customers[i].accounts) == AccountNumbers(c.accounts) + [number];
    FirstMatchAppend(AccountNumbers(c.accounts), number, key);
  }

  // ---------------------------------------------------------------------------
  // Non-negative balances
  // ---------------------------------------------------------------------------

  ghost predicate Solvent(b: BankState)
  {
    forall l :: ValidLocation(b, l) ==> AccountAt(b, l).balance >= 0
  }

  /** Amounts a user would type: no negative initial balance, deposit or transfer. */
  predicate NonNegativeAmounts(cmd: Command)
  {
    match cmd
    case CreateAccount(_, _, initial) => initial >= 0
    case DepositTo(_, _, amount) => amount >= 0
    case TransferFunds(_, _, _, _, amount) => amount >= 0
    case _ => true
  }

  lemma SolventWithAccount(b: BankState, l: Location, a: AccountState)
    requires Solvent(b) && ValidLocation(b, l) && a.balance >= 0
    ensures Solvent(WithAccount(b, l, a))
  {
    var r := WithAccount(b, l, a);
    forall m | ValidLocation(r, m) ensures AccountAt(r, m).balance >= 0 {
      assert ValidLocation(b, m);
    }
  }

  /**
   * The guard `amount > balance` keeps every balance non-negative, as long as no initial
   * balance, deposit or transfer amount is negative (the program checks none of them).
   */
  lemma StepKeepsSolvent(b: BankState, cmd: Command)
    requires Solvent(b) && NonNegativeAmounts(cmd)
    ensures Solvent(Step(b, cmd).next)
  {
    match cmd
    case CreateCustomer(name, id) => CreateCustomerKeepsSolvent(b, name, id);
    case CreateAccount(cid, number, initial) => CreateAccountKeepsSolvent(b, cid, number, initial);
    case DepositTo(cid, number, amount) => {
      match Locate(b, cid, number)
      case NoCustomer =>
      case NoAccount(_) =>
      case Found(l) => SolventWithAccount(b, l, Deposited(AccountAt(b, l), amount));
    }
    case WithdrawFrom(cid, number, amount) => {
      match Locate(b, cid, number)
      case NoCustomer =>
      case NoAccount(_) =>
      case Found(l) => SolventWithAccount(b, l, Withdrawn(AccountAt(b, l), amount));
    }
    case TransferFunds(fromID, fromNumber, toID, toNumber, amount) =>
      TransferKeepsSolvent(b, fromID, fromNumber, toID, toNumber, amount);
    case _ =>
  }

  lemma CreateCustomerKeepsSolvent(b: BankState, name: string, id: int)
    requires Solvent(b)
    ensures Solvent(CreateCustomerStep(b, name, id).next)
  {
    var r := CreateCustomerStep(b, name, id).next;
    forall l | ValidLocation(r, l) ensures AccountAt(r, l).balance >= 0 {
      assert l.customer < |b.customers|;
      assert AccountAt(r, l) == AccountAt(b, l);
    }
  }

  lemma CreateAccountKeepsSolvent(b: BankState, cid: int, number: int, initial: int)
    requires Solvent(b) && initial >= 0
    ensures Solvent(CreateAccountStep(b, cid, number, initial).next)
  {
    var r := CreateAccountStep(b, cid, number, initial).next;
    match FirstMatch(CustomerIDs(b.customers), cid)
    case None =>
    case Some(i) =>
      forall l | ValidLocation(r, l) ensures AccountAt(r, l).balance >= 0 {
        if l.customer == i && l.account == |b.customers[i].accounts| {
          assert AccountAt(r, l) == NewAccount(number, initial);
        } else {
          assert ValidLocation(b, l) && AccountAt(r, l) == AccountAt(b, l);
        }
      }
  }

  lemma TransferKeepsSolvent(b: BankState, fromID: int, fromNumber: int, toID: int, toNumber: int, amount: int)
    requires Solvent(b) && amount >= 0
    ensures Solvent(TransferStep(b, fromID, fromNumber, toID, toNumber, amount).next)
  {
    match LocateEnds(b, fromID, fromNumber, toID, toNumber)
    case CustomerMissing =>
    case AccountMissing =>
    case Both(from, to) =>
      var src := AccountAt(b, from);
      if amount <= src.balance {
        var b1 := WithAccount(b, from, Withdrawn(src, amount));
        SolventWithAccount(b, from, Withdrawn(src, amount));
        SolventWithAccount(b1, to, Deposited(AccountAt(b1, to), amount));
      }
  }

  /** A transfer of a negative amount passes the guard and drives the target account below zero. */
  lemma NegativeTransferOverdraws()
    ensures var b := BankState([CustomerState("A", 1, [NewAccount(10, 0), NewAccount(20, 0)])]);
      Solvent(b) &&
      var r := Step(b, TransferFunds(1, 10, 1, 20, -500));
      r.outcome == TransferDone && !Solvent(r.next) &&
      ValidLocation(r.next, Location(0, 1)) && AccountAt(r.next, Location(0, 1)).balance == -500
  {
    var b := BankState([CustomerState("A", 1, [NewAccount(10, 0), NewAccount(20, 0)])]);
    assert CustomerIDs(b.customers) == [1];
    assert AccountNumbers(b.customers[0].accounts) == [10, 20];
    var r := Step(b, TransferFunds(1, 10, 1, 20, -500));
    assert ValidLocation(r.next, Location(0, 1)) && AccountAt(r.next, Location(0, 1)).balance == -500;
  }

  /** A deposit of a negative amount is accepted and can leave a balance below zero. */
  lemma NegativeDepositOverdraws()
    ensures var b := BankState([CustomerState("A", 1, [NewAccount(10, 0)])]);
      Solvent(b) &&
      var r := Step(b, DepositTo(1, 10, -500));
      r.outcome == DepositDone(-500) && !Solvent(r.next)
  {
    var b := BankState([CustomerState("A", 1, [NewAccount(10, 0)])]);
    assert CustomerIDs(b.customers) == [1];
    assert AccountNumbers(b.customers[0].accounts) == [10];
    var r := Step(b, DepositTo(1, 10, -500));
    assert ValidLocation(r.next, Location(0, 0)) && AccountAt(r.next, Location(0, 0)).balance == -500;
  }

  // ---------------------------------------------------------------------------
  // A run of the loop over a finite sequence of choices
  // ---------------------------------------------------------------------------

  datatype Session = Session(bank: BankState, outcomes: seq<Outcome>)

  /** The choices are applied in order; Exit is applied and ends the run, later choices are never read. */
  function Run(b: BankState, cmds: seq<Command>): Session
    decreases |cmds|
  {
    if cmds == [] then Session(b, [])
    else
      var r := Step(b, cmds[0]);
      if cmds[0].Exit? then Session(r.next, [r.outcome])
      else
        var s := Run(r.next, cmds[1..]);
        Session(s.bank, [r.outcome] + s.outcomes)
  }

  /** Over a whole run, customers, accounts and log entries are only ever added. */
  lemma {:induction false} RunExtends(b: BankState, cmds: seq<Command>)
    ensures Extends(b, Run(b, cmds).bank)
    decreases |cmds|
  {
    if cmds == [] {
      assert Extends(b, b);
    } else {
      var r := Step(b, cmds[0]);
      StepExtends(b, cmds[0]);
      if !cmds[0].Exit? {
        RunExtends(r.next, cmds[1..]);
        ExtendsTransitive(b, r.next, Run(r.next, cmds[1..]).bank);
      }
    }
  }

  /** Balances stay non-negative over a whole run in which no typed amount is negative. */
  lemma {:induction false} RunKeepsSolvent(b: BankState, cmds: seq<Command>)
    requires Solvent(b)
    requires forall i :: 0 <= i < |cmds| ==> NonNegativeAmounts(cmds[i])
    ensures Solvent(Run(b, cmds).bank)
    decreases |cmds|
  {
    if cmds != [] {
      StepKeepsSolvent(b, cmds[0]);
      if !cmds[0].Exit? {
        RunKeepsSolvent(Step(b, cmds[0]).next, cmds[1..]);
      }
    }
  }

  /** A run reports one outcome per choice it reads, and it reads no choice after an Exit. */
  lemma {:induction false} RunOutcomes(b: BankState, cmds: seq<Command>)
    ensures |Run(b, cmds).outcomes| <= |cmds|
    ensures |Run(b, cmds).outcomes| < |cmds| ==> Exit in cmds
    ensures forall i :: 0 <= i < |Run(b, cmds).outcomes| - 1 ==> Run(b, cmds).outcomes[i] != Exiting
    decreases |cmds|
  {
    if cmds != [] && !cmds[0].Exit? {
      var s := Run(Step(b, cmds[0]).next, cmds[1..]);
      RunOutcomes(Step(b, cmds[0]).next, cmds[1..]);
      assert Step(b, cmds[0]).outcome != Exiting;
      assert |s.outcomes| < |cmds[1..]| ==> Exit in cmds[1..];
    }
  }

  /** A run is its first step followed by the run of the rest, which Exit cuts off. */
  lemma RunCons(b: BankState, cmds: seq<Command>, next: BankState, outcome: Outcome)
    requires cmds != [] && Step(b, cmds[0]) == Reply(next, outcome)
    ensures Run(b, cmds) ==
      if cmds[0].Exit? then Session(next, [outcome])
      else Session(Run(next, cmds[1..]).bank, [outcome] + Run(next, cmds[1..]).outcomes)
  {
  }

  /**
   * A run seen part-way: once the outcomes `done` are out and `cmds` remain, taking the
   * first remaining step either ends the run (Exit) or leaves the rest of `cmds` to run.
   */
  lemma RunAdvance(b: BankState, cmds: seq<Command>, next: BankState, outcome: Outcome,
                   done: seq<Outcome>, whole: Session)
    requires cmds != [] && Step(b, cmds[0]) == Reply(next, outcome)
    requires whole == Session(Run(b, cmds).bank, done + Run(b, cmds).outcomes)
    ensures cmds[0].Exit? ==> whole == Session(next, done + [outcome])
    ensures !cmds[0].Exit? ==>
      whole == Session(Run(next, cmds[1..]).bank, (done + [outcome]) + Run(next, cmds[1..]).outcomes)
  {
    RunCons(b, cmds, next, outcome);
    if !cmds[0].Exit? {
      assert done + ([outcome] + Run(next, cmds[1..]).outcomes) == (done + [outcome]) + Run(next, cmds[1..]).outcomes;
    }
  }

  // The walk-through, one choice at a time: Alice (ID 1) opens account 100 with 50.00,
  // deposits 25.00, fails to withdraw 200.00, and transfers 50.00 to account 200 of
  // customer 2 (Bob), opened with 0.00.

  function DepositEntry(amount: int): Transaction { Transaction(Deposit, amount, BuildStamp) }

  function WithdrawalEntry(amount: int): Transaction { Transaction(Withdrawal, amount, BuildStamp) }

  lemma WalkOpen()
    ensures Step(BankState([]), CreateCustomer("Alice", 1)) ==
      Reply(BankState([CustomerState("Alice", 1, [])]), CustomerCreated)
    ensures Step(BankState([CustomerState("Alice", 1, [])]), CreateAccount(1, 100, 5000)) ==
      Reply(BankState([CustomerState("Alice", 1, [NewAccount(100, 5000)])]), AccountCreated)
  {
    var b := BankState([CustomerState("Alice", 1, [])]);
    assert CustomerIDs(b.customers) == [1];
    assert FirstMatch([1], 1) == Some(0);
    var c' := b.customers[0].(accounts := b.customers[0].accounts + [NewAccount(100, 5000)]);
    assert c' == CustomerState("Alice", 1, [NewAccount(100, 5000)]);
    assert b.customers[0 := c'] == [c'];
  }

  lemma WalkDeposit()
    ensures Step(BankState([CustomerState("Alice", 1, [NewAccount(100, 5000)])]), DepositTo(1, 100, 2500)) ==
      Reply(BankState([CustomerState("Alice", 1, [AccountState(100, 7500, [DepositEntry(2500)])])]), DepositDone(7500))
  {
    var b := BankState([CustomerState("Alice", 1, [NewAccount(100, 5000)])]);
    assert CustomerIDs(b.customers) == [1];
    assert AccountNumbers(b.customers[0].accounts) == [100];
    assert FirstMatch([1], 1) == Some(0);
    assert FirstMatch([100], 100) == Some(0);
    assert Locate(b, 1, 100) == Found(Location(0, 0));
    var a := Deposited(AccountAt(b, Location(0, 0)), 2500);
    assert a == AccountState(100, 7500, [DepositEntry(2500)]);
    assert b.customers[0].accounts[0 := a] == [a];
    assert b.customers[0 := CustomerState("Alice", 1, [a])] == [CustomerState("Alice", 1, [a])];
  }

  lemma WalkWithdraw()
    ensures var b := BankState([CustomerState("Alice", 1, [AccountState(100, 7500, [DepositEntry(2500)])])]);
      Step(b, WithdrawFrom(1, 100, 20000)) == Reply(b, InsufficientBalance)
  {
    var b := BankState([CustomerState("Alice", 1, [AccountState(100, 7500, [DepositEntry(2500)])])]);
    assert CustomerIDs(b.customers) == [1];
    assert AccountNumbers(b.customers[0].accounts) == [100];
    assert Locate(b, 1, 100) == Found(Location(0, 0));
  }

  lemma WalkSecondCustomer()
    ensures var alice := CustomerState("Alice", 1, [AccountState(100, 7500, [DepositEntry(2500)])]);
      Step(BankState([alice]), CreateCustomer("Bob", 2)) ==
        Reply(BankState([alice, CustomerState("Bob", 2, [])]), CustomerCreated) &&
      Step(BankState([alice, CustomerState("Bob", 2, [])]), CreateAccount(2, 200, 0)) ==
        Reply(BankState([alice, CustomerState("Bob", 2, [NewAccount(200, 0)])]), AccountCreated)
  {
    var alice := CustomerState("Alice", 1, [AccountState(100, 7500, [DepositEntry(2500)])]);
    assert CustomerIDs([alice, CustomerState("Bob", 2, [])]) == [1, 2];
    assert FirstMatch([1, 2], 2) == Some(1) by {
      assert [1, 2][1..] == [2];
      assert FirstMatch([2], 2) == Some(0);
    }
    assert [alice] + [CustomerState("Bob", 2, [])] == [alice, CustomerState("Bob", 2, [])];
    var b := BankState([alice, CustomerState("Bob", 2, [])]);
    var c' := b.customers[1].(accounts := b.customers[1].accounts + [NewAccount(200, 0)]);
    assert c' == CustomerState("Bob", 2, [NewAccount(200, 0)]);
    assert b.customers[1 := c'] == [alice, c'];
  }

  lemma WalkTransfer()
    ensures var alice := CustomerState("Alice", 1, [AccountState(100, 7500, [DepositEntry(2500)])]);
      Step(BankState([alice, CustomerState("Bob", 2, [NewAccount(200, 0)])]), TransferFunds(1, 100, 2, 200, 5000)) ==
        Reply(BankState([CustomerState("Alice", 1, [AccountState(100, 2500, [DepositEntry(2500), WithdrawalEntry(5000)])]),
                         CustomerState("Bob", 2, [AccountState(200, 5000, [DepositEntry(5000)])])]), TransferDone)
  {
    var alice := CustomerState("Alice", 1, [AccountState(100, 7500, [DepositEntry(2500)])]);
    var b := BankState([alice, CustomerState("Bob", 2, [NewAccount(200, 0)])]);
    assert CustomerIDs(b.customers) == [1, 2];
    assert AccountNumbers(b.customers[0].accounts) == [100];
    assert AccountNumbers(b.customers[1].accounts) == [200];
    assert FirstMatch([1, 2], 1) == Some(0);
    assert FirstMatch([1, 2], 2) == Some(1) by {
      assert [1, 2][1..] == [2];
      assert FirstMatch([2], 2) == Some(0);
    }
    assert FirstMatch([100], 100) == Some(0);
    assert FirstMatch([200], 200) == Some(0);
    assert LocateEnds(b, 1, 100, 2, 200) == Both(Location(0, 0), Location(1, 0));
    var b1 := WithAccount(b, Location(0, 0), Withdrawn(AccountAt(b, Location(0, 0)), 5000));
    var alice' := CustomerState("Alice", 1, [AccountState(100, 2500, [DepositEntry(2500), WithdrawalEntry(5000)])]);
    assert Withdrawn(AccountAt(b, Location(0, 0)), 5000) == alice'.accounts[0];
    assert b.customers[0].accounts[0 := alice'.accounts[0]] == alice'.accounts;
    assert b.customers[0 := alice'] == [alice', CustomerState("Bob", 2, [NewAccount(200, 0)])];
    assert b1.customers == [alice', CustomerState("Bob", 2, [NewAccount(200, 0)])];
    var bob' := CustomerState("Bob", 2, [AccountState(200, 5000, [DepositEntry(5000)])]);
    assert Deposited(AccountAt(b1, Location(1, 0)), 5000) == bob'.accounts[0];
    assert b1.customers[1].accounts[0 := bob'.accounts[0]] == bob'.accounts;
    assert b1.customers[1 := bob'] == [alice', bob'];
    assert WithAccount(b1, Location(1, 0), bob'.accounts[0]).customers == [alice', bob'];
  }

  /** The last four choices of the walk-through, from Alice's deposit onwards. */
  lemma WalkRunTail()
    ensures var alice := CustomerState("Alice", 1, [AccountState(100, 7500, [DepositEntry(2500)])]);
      Run(BankState([alice]), [
        WithdrawFrom(1, 100, 20000), CreateCustomer("Bob", 2), CreateAccount(2, 200, 0),
        TransferFunds(1, 100, 2, 200, 5000)]) ==
      Session(
        BankState([
          CustomerState("Alice", 1, [AccountState(100, 2500, [DepositEntry(2500), WithdrawalEntry(5000)])]),
          CustomerState("Bob", 2, [AccountState(200, 5000, [DepositEntry(5000)])])]),
        [InsufficientBalance, CustomerCreated, AccountCreated, TransferDone])
  {
    var alice := CustomerState("Alice", 1, [AccountState(100, 7500, [DepositEntry(2500)])]);
    var s3 := BankState([alice]);
    var s5 := BankState([alice, CustomerState("Bob", 2, [])]);
    var s6 := BankState([alice, CustomerState("Bob", 2, [NewAccount(200, 0)])]);
    var s7 := BankState([CustomerState("Alice", 1, [AccountState(100, 2500, [DepositEntry(2500), WithdrawalEntry(5000)])]),
                         CustomerState("Bob", 2, [AccountState(200, 5000, [DepositEntry(5000)])])]);
    var c3, c4, c5 := WithdrawFrom(1, 100, 20000), CreateCustomer("Bob", 2), CreateAccount(2, 200, 0);
    var c6 := TransferFunds(1, 100, 2, 200, 5000);
    WalkWithdraw();
    WalkSecondCustomer();
    WalkTransfer();
    RunCons(s6, [c6], s7, TransferDone);
    assert [c5, c6][1..] == [c6];
    RunCons(s5, [c5, c6], s6, AccountCreated);
    assert [c4, c5, c6][1..] == [c5, c6];
    RunCons(s3, [c4, c5, c6], s5, CustomerCreated);
    assert [c3, c4, c5, c6][1..] == [c4, c5, c6];
    RunCons(s3, [c3, c4, c5, c6], s3, InsufficientBalance);
  }

  /** The last five choices of the walk-through, from Alice's deposit onwards. */
  lemma WalkRunFromDeposit()
    ensures Run(BankState([CustomerState("Alice", 1, [NewAccount(100, 5000)])]), [
        DepositTo(1, 100, 2500), WithdrawFrom(1, 100, 20000), CreateCustomer("Bob", 2),
        CreateAccount(2, 200, 0), TransferFunds(1, 100, 2, 200, 5000)]) ==
      Session(
        BankState([
          CustomerState("Alice", 1, [AccountState(100, 2500, [DepositEntry(2500), WithdrawalEntry(5000)])]),
          CustomerState("Bob", 2, [AccountState(200, 5000, [DepositEntry(5000)])])]),
        [DepositDone(7500), InsufficientBalance, CustomerCreated, AccountCreated, TransferDone])
  {
    var s2 := BankState([CustomerState("Alice", 1, [NewAccount(100, 5000)])]);
    var s3 := BankState([CustomerState("Alice", 1, [AccountState(100, 7500, [DepositEntry(2500)])])]);
    var c2, c3, c4 := DepositTo(1, 100, 2500), WithdrawFrom(1, 100, 20000), CreateCustomer("Bob", 2);
    var c5, c6 := CreateAccount(2, 200, 0), TransferFunds(1, 100, 2, 200, 5000);
    WalkDeposit();
    WalkRunTail();
    assert [c2, c3, c4, c5, c6][1..] == [c3, c4, c5, c6];
    RunCons(s2, [c2, c3, c4, c5, c6], s3, DepositDone(7500));
  }

  /** The last six choices of the walk-through, from Alice's first account onwards. */
  lemma WalkRunFromAccount()
    ensures Run(BankState([CustomerState("Alice", 1, [])]), [
        CreateAccount(1, 100, 5000), DepositTo(1, 100, 2500), WithdrawFrom(1, 100, 20000),
        CreateCustomer("Bob", 2), CreateAccount(2, 200, 0), TransferFunds(1, 100, 2, 200, 5000)]) ==
      Session(
        BankState([
          CustomerState("Alice", 1, [AccountState(100, 2500, [DepositEntry(2500), WithdrawalEntry(5000)])]),
          CustomerState("Bob", 2, [AccountState(200, 5000, [DepositEntry(5000)])])]),
        [AccountCreated, DepositDone(7500), InsufficientBalance, CustomerCreated, AccountCreated, TransferDone])
  {
    var s1 := BankState([CustomerState("Alice", 1, [])]);
    var s2 := BankState([CustomerState("Alice", 1, [NewAccount(100, 5000)])]);
    var c1, c2, c3 := CreateAccount(1, 100, 5000), DepositTo(1, 100, 2500), WithdrawFrom(1, 100, 20000);
    var c4, c5, c6 := CreateCustomer("Bob", 2), CreateAccount(2, 200, 0), TransferFunds(1, 100, 2, 200, 5000);
    WalkOpen();
    WalkRunFromDeposit();
    assert [c1, c2, c3, c4, c5, c6][1..] == [c2, c3, c4, c5, c6];
    RunCons(s1, [c1, c2, c3, c4, c5, c6], s2, AccountCreated);
  }

  /** The whole walk-through as one run: the outcomes it reports and the balances it ends with. */
  lemma Walkthrough()
    ensures Run(BankState([]), [
        CreateCustomer("Alice", 1), CreateAccount(1, 100, 5000), DepositTo(1, 100, 2500),
        WithdrawFrom(1, 100, 20000), CreateCustomer("Bob", 2), CreateAccount(2, 200, 0),
        TransferFunds(1, 100, 2, 200, 5000)]) ==
      Session(
        BankState([
          CustomerState("Alice", 1, [AccountState(100, 2500, [DepositEntry(2500), WithdrawalEntry(5000)])]),
          CustomerState("Bob", 2, [AccountState(200, 5000, [DepositEntry(5000)])])]),
        [CustomerCreated, AccountCreated, DepositDone(7500), InsufficientBalance,
         CustomerCreated, AccountCreated, TransferDone])
  {
    var c0, c1, c2 := CreateCustomer("Alice", 1), CreateAccount(1, 100, 5000), DepositTo(1, 100, 2500);
    var c3, c4, c5 := WithdrawFrom(1, 100, 20000), CreateCustomer("Bob", 2), CreateAccount(2, 200, 0);
    var c6 := TransferFunds(1, 100, 2, 200, 5000);
    WalkOpen();
    WalkRunFromAccount();
    assert [c0, c1, c2, c3, c4, c5, c6][1..] == [c1, c2, c3, c4, c5, c6];
    RunCons(BankState([]), [c0, c1, c2, c3, c4, c5, c6], BankState([CustomerState("Alice", 1, [])]), CustomerCreated);
  }
}
