/**
 * The three classes of the program. Each object changes its own fields in place:
 * an Account its balance and its log, a Customer its list of accounts, the Bank its list
 * of customers. `State()` and `View()` read an object out as the values of module Ledger.
 */
module Banking {
  import opened Wrappers
  import opened Ledger

  class Account {
    const accountNumber: int
    var balance: int
    var transactions: seq<Transaction>

    constructor (accountNumber: int, initialBalance: int)
      ensures this.accountNumber == accountNumber && balance == initialBalance && transactions == []
    {
      this.accountNumber := accountNumber;
      balance := initialBalance;
      transactions := [];
    }

    function State(): AccountState
      reads this
    {
      AccountState(accountNumber, balance, transactions)
    }

    /** Adds the amount, whatever its sign, and logs one Deposit. */
    method Deposit(amount: int)
      modifies this
      ensures balance == old(balance) + amount
      ensures transactions == old(transactions) + [Transaction(Ledger.Deposit, amount, BuildStamp)]
      ensures State() == Deposited(old(State()), amount)
    {
      balance := balance + amount;
      transactions := transactions + [Transaction(Ledger.Deposit, amount, BuildStamp)];
    }

    /** Refuses, changing nothing, when the amount exceeds the balance; otherwise subtracts it and logs one Withdrawal. */
    method Withdraw(amount: int) returns (ok: bool)
      modifies this
      ensures ok <==> amount <= old(balance)
      ensures !ok ==> balance == old(balance) && transactions == old(transactions)
      ensures ok ==> balance == old(balance) - amount &&
                     transactions == old(transactions) + [Transaction(Withdrawal, amount, BuildStamp)]
      ensures State() == Withdrawn(old(State()), amount)
    {
      if amount > balance {
        ok := false;
      } else {
        balance := balance - amount;
        transactions := transactions + [Transaction(Withdrawal, amount, BuildStamp)];
        ok := true;
      }
    }

    /**
     * The guard of the source account, then a withdrawal from it and a deposit into `to`.
     * When `to` is this very account, its balance ends where it started and its log gains
     * a Withdrawal followed by a Deposit.
     */
    method Transfer(to: Account, amount: int) returns (ok: bool)
      modifies this, to
      ensures ok <==> amount <= old(balance)
      ensures !ok ==> balance == old(balance) && transactions == old(transactions) &&
                      to.balance == old(to.balance) && to.transactions == old(to.transactions)
      ensures ok && to != this ==>
        balance == old(balance) - amount &&
        transactions == old(transactions) + [Transaction(Withdrawal, amount, BuildStamp)] &&
        to.balance == old(to.balance) + amount &&
        to.transactions == old(to.transactions) + [Transaction(Ledger.Deposit, amount, BuildStamp)]
      ensures ok && to == this ==>
        balance == old(balance) &&
        transactions == old(transactions) +
          [Transaction(Withdrawal, amount, BuildStamp), Transaction(Ledger.Deposit, amount, BuildStamp)]
      ensures to != this ==>
        State() == Withdrawn(old(State()), amount) &&
        to.State() == if ok then Deposited(old(to.State()), amount) else old(to.State())
      ensures to == this ==>
        State() == if ok then Deposited(Withdrawn(old(State()), amount), amount) else old(State())
    {
      if amount > balance {
        ok := false;
      } else {
        var _ := Withdraw(amount);
        to.Deposit(amount);
        ok := true;
      }
    }
  }

  class Customer {
    const name: string
    const customerID: int
    var accounts: seq<Account>

    constructor (name: string, customerID: int)
      ensures this.name == name && this.customerID == customerID && accounts == []
    {
      this.name := name;
      this.customerID := customerID;
      accounts := [];
    }

    /** The account numbers in the order the accounts were created. */
    function Numbers(): seq<int>
      reads this
    {
      var a := accounts;
      seq(|a|, k requires 0 <= k < |a| => a[k].accountNumber)
    }

    function State(): CustomerState
      reads this, accounts
    {
      var a := accounts;
      CustomerState(name, customerID, seq(|a|, k requires 0 <= k < |a| reads a => a[k].State()))
    }

    /** Appends a fresh account; a number already in use is not checked for. */
    method CreateAccount(accountNumber: int, initialBalance: int)
      modifies this
      ensures |accounts| == |old(accounts)| + 1
      ensures accounts[..|old(accounts)|] == old(accounts)
      ensures fresh(accounts[|old(accounts)|])
      ensures accounts[|old(accounts)|].State() == NewAccount(accountNumber, initialBalance)
    {
      var account := new Account(accountNumber, initialBalance);
      accounts := accounts + [account];
    }

    /** A scan from the front: the first account with that number, or null when there is none. */
    method GetAccount(accountNumber: int) returns (account: Account?)
      ensures account == null <==> accountNumber !in Numbers()
      ensures match FirstMatch(Numbers(), accountNumber)
        case None => account == null
        case Some(k) => account == accounts[k]
    {
      var k := 0;
      while k < |accounts|
        invariant 0 <= k <= |accounts|
        invariant forall j :: 0 <= j < k ==> accounts[j].accountNumber != accountNumber
      {
        if accounts[k].accountNumber == accountNumber {
          FirstMatchAt(Numbers(), accountNumber, k);
          return accounts[k];
        }
        k := k + 1;
      }
      return null;
    }
  }

  class Bank {
    var customers: seq<Customer>

    constructor ()
      ensures customers == [] && Valid()
    {
      customers := [];
    }

    /** The customer IDs in the order the customers were created. */
    function IDs(): seq<int>
      reads this
    {
      var c := customers;
      seq(|c|, i requires 0 <= i < |c| => c[i].customerID)
    }

    /** Every account of every customer. */
    ghost function Accounts(): set<Account>
      reads this, customers
    {
      AccountsOf(customers)
    }

    /** The objects a menu choice may change. */
    ghost function Repr(): set<object>
      reads this, customers
    {
      {this} + CustomerObjects(customers) + Accounts()
    }

    /** The object tree is a tree: no customer twice, and no account shared between two places. */
    ghost predicate Valid()
      reads this, customers
    {
      Distinct(customers)
    }

    /** The account object at a location. */
    ghost function At(l: Location): Account
      reads this, customers
      requires l.customer < |customers| && l.account < |customers[l.customer].accounts|
    {
      customers[l.customer].accounts[l.account]
    }

    ghost function View(): BankState
      reads this, customers, Accounts()
    {
      BankState(StatesOf(customers))
    }

    /** Appends a fresh customer with no accounts; an ID already in use is not checked for. */
    method CreateCustomer(name: string, customerID: int)
      modifies this
      ensures |customers| == |old(customers)| + 1
      ensures customers[..|old(customers)|] == old(customers)
      ensures var c := customers[|old(customers)|];
        fresh(c) && c.name == name && c.customerID == customerID && c.accounts == []
      ensures Repr() == old(Repr()) + {customers[|old(customers)|]}
      ensures View() == BankState(old(View()).customers + [CustomerState(name, customerID, [])])
      ensures old(Valid()) ==> Valid()
    {
      var customer := new Customer(name, customerID);
      customers := customers + [customer];
      CustomerAppended(this);
    }

    /** A scan from the front: the first customer with that ID, or null when there is none. */
    method GetCustomer(customerID: int) returns (customer: Customer?)
      ensures customer == null <==> customerID !in IDs()
      ensures match FirstMatch(IDs(), customerID)
        case None => customer == null
        case Some(i) => customer == customers[i]
    {
      var i := 0;
      while i < |customers|
        invariant 0 <= i <= |customers|
        invariant forall j :: 0 <= j < i ==> customers[j].customerID != customerID
      {
        if customers[i].customerID == customerID {
          FirstMatchAt(IDs(), customerID, i);
          return customers[i];
        }
        i := i + 1;
      }
      return null;
    }
  }

  /** No customer twice, and no account in two places. */
  ghost predicate Distinct(cs: seq<Customer>)
    reads cs
  {
    (forall i, j {:trigger CustomersApart(cs, i, j)} | 0 <= i < j < |cs| :: CustomersApart(cs, i, j)) &&
    (forall i, k, j, l {:trigger AccountsApart(cs, i, k, j, l)} |
      0 <= i < |cs| && 0 <= k < |cs[i].accounts| && 0 <= j < |cs| && 0 <= l < |cs[j].accounts| ::
      AccountsApart(cs, i, k, j, l))
  }

  /** The customers at indices `i` and `j` are different objects. */
  ghost predicate CustomersApart(cs: seq<Customer>, i: nat, j: nat)
    requires i < |cs| && j < |cs|
  {
    cs[i] != cs[j]
  }

  /** The accounts at two places are one object only when the places are one. */
  ghost predicate AccountsApart(cs: seq<Customer>, i: nat, k: nat, j: nat, l: nat)
    reads cs
    requires i < |cs| && k < |cs[i].accounts| && j < |cs| && l < |cs[j].accounts|
  {
    cs[i].accounts[k] == cs[j].accounts[l] ==> i == j && k == l
  }

  /** Every account of the given customers. */
  ghost function AccountsOf(cs: seq<Customer>): set<Account>
    reads cs
  {
    set i, k | 0 <= i < |cs| && 0 <= k < |cs[i].accounts| :: cs[i].accounts[k]
  }

  /** The customers read out as values, in order. */
  ghost function StatesOf(cs: seq<Customer>): (r: seq<CustomerState>)
    reads cs, AccountsOf(cs)
    ensures |r| == |cs| && forall i :: 0 <= i < |cs| ==> r[i] == cs[i].State()
  {
    if cs == [] then []
    else
      assert forall k :: 0 <= k < |cs[0].accounts| ==> cs[0].accounts[k] in AccountsOf(cs);
      assert AccountsOf(cs[1..]) <= AccountsOf(cs) by {
        forall a | a in AccountsOf(cs[1..]) ensures a in AccountsOf(cs) {
          var i, k :| 0 <= i < |cs[1..]| && 0 <= k < |cs[1..][i].accounts| && a == cs[1..][i].accounts[k];
          assert a == cs[i + 1].accounts[k];
        }
      }
      [cs[0].State()] + StatesOf(cs[1..])
  }

  /** The given customers as objects. */
  ghost function CustomerObjects(cs: seq<Customer>): set<object>
  {
    set c: Customer | c in cs :: c as object
  }

  lemma UnionAddLast(a: set<object>, b: set<object>, c: set<object>, x: object)
    ensures a + (b + {x}) + c == a + b + c + {x}
  {
  }

  /** Appending a customer adds it, and nothing else, to the customer objects. */
  lemma CustomerObjectsAppend(cs: seq<Customer>, c: Customer)
    ensures CustomerObjects(cs + [c]) == CustomerObjects(cs) + {c}
  {
    var cs' := cs + [c];
    forall o: object | o in CustomerObjects(cs') ensures o in CustomerObjects(cs) + {c} {
      var x: Customer :| x in cs' && o == x as object;
      assert x in cs || x == c;
    }
    forall o: object | o in CustomerObjects(cs) + {c} ensures o in CustomerObjects(cs') {
      assert c in cs';
      var x: Customer :| x in cs + [c] && o == x as object;
      assert x in cs';
    }
  }

  /** Appending a customer with no accounts adds no account and adds its state at the end. */
  lemma EmptyCustomerAppend(cs: seq<Customer>, c: Customer)
    requires c.accounts == []
    ensures AccountsOf(cs + [c]) == AccountsOf(cs)
    ensures StatesOf(cs + [c]) == StatesOf(cs) + [CustomerState(c.name, c.customerID, [])]
  {
    var cs' := cs + [c];
    forall a | a in AccountsOf(cs') ensures a in AccountsOf(cs) {
      var i, k :| 0 <= i < |cs'| && 0 <= k < |cs'[i].accounts| && a == cs'[i].accounts[k];
      assert i < |cs| && cs'[i] == cs[i];
    }
    forall a | a in AccountsOf(cs) ensures a in AccountsOf(cs') {
      var i, k :| 0 <= i < |cs| && 0 <= k < |cs[i].accounts| && a == cs[i].accounts[k];
      assert cs'[i] == cs[i];
    }
    assert c.State() == CustomerState(c.name, c.customerID, []);
    assert StatesOf(cs') == StatesOf(cs) + [c.State()];
  }

  /** A new customer with no accounts keeps the customers distinct. */
  lemma DistinctAppend(cs: seq<Customer>, c: Customer)
    requires Distinct(cs) && c !in cs && c.accounts == []
    ensures Distinct(cs + [c])
  {
    var cs' := cs + [c];
    forall i, j | 0 <= i < j < |cs'| ensures CustomersApart(cs', i, j) {
      if j < |cs| {
        assert CustomersApart(cs, i, j);
      }
    }
    forall i, k, j, l |
      0 <= i < |cs'| && 0 <= k < |cs'[i].accounts| && 0 <= j < |cs'| && 0 <= l < |cs'[j].accounts|
      ensures AccountsApart(cs', i, k, j, l)
    {
      assert i < |cs| && j < |cs| && AccountsApart(cs, i, k, j, l);
    }
  }

  /** The locations of the view are those of the object tree, and each holds the state of its account object. */
  lemma ViewAt(bank: Bank, l: Location)
    ensures ValidLocation(bank.View(), l) <==>
      l.customer < |bank.customers| && l.account < |bank.customers[l.customer].accounts|
    ensures ValidLocation(bank.View(), l) ==> AccountAt(bank.View(), l) == bank.At(l).State()
  {
  }

  /**
   * The bank gained a new customer with no accounts at the end of its list, and nothing
   * else changed: the customer joins the object tree, which stays a tree, and its state
   * joins the view.
   */
  twostate lemma CustomerAppended(bank: Bank)
    requires |bank.customers| == |old(bank.customers)| + 1
    requires bank.customers[..|old(bank.customers)|] == old(bank.customers)
    requires var c := bank.customers[|old(bank.customers)|]; !old(allocated(c)) && c.accounts == []
    requires forall i | 0 <= i < |old(bank.customers)| :: unchanged(bank.customers[i])
    requires forall a | a in old(bank.Accounts()) :: unchanged(a)
    ensures var c := bank.customers[|old(bank.customers)|];
      bank.Repr() == old(bank.Repr()) + {c} &&
      bank.View() == BankState(old(bank.View()).customers + [CustomerState(c.name, c.customerID, [])])
    ensures old(bank.Valid()) ==> bank.Valid()
  {
    CustomerAppendedFrame(bank);
    CustomerAppendedView(bank);
  }

  /** The footprint after appending a customer gains just that customer; validity is kept. */
  twostate lemma CustomerAppendedFrame(bank: Bank)
    requires |bank.customers| == |old(bank.customers)| + 1
    requires bank.customers[..|old(bank.customers)|] == old(bank.customers)
    requires var c := bank.customers[|old(bank.customers)|]; !old(allocated(c)) && c.accounts == []
    requires forall i | 0 <= i < |old(bank.customers)| :: unchanged(bank.customers[i])
    requires forall a | a in old(bank.Accounts()) :: unchanged(a)
    ensures bank.Repr() == old(bank.Repr()) + {bank.customers[|old(bank.customers)|]}
    ensures old(bank.Valid()) ==> bank.Valid()
  {
    var cs := old(bank.customers);
    var c := bank.customers[|cs|];
    assert bank.customers == cs + [c];
    assert c !in cs;
    assert AccountsOf(cs) == old(AccountsOf(cs)) == old(bank.Accounts());
    assert Distinct(cs) == old(Distinct(cs));
    EmptyCustomerAppend(cs, c);
    CustomerObjectsAppend(cs, c);
    calc {
      bank.Repr();
      ({bank} + CustomerObjects(cs + [c]) + AccountsOf(cs + [c]));
      ({bank} + (CustomerObjects(cs) + {c}) + old(AccountsOf(cs)));
      { UnionAddLast({bank}, CustomerObjects(cs), old(AccountsOf(cs)), c); }
      old(bank.Repr()) + {c};
    }
    if old(bank.Valid()) {
      DistinctAppend(cs, c);
    }
  }

  /** The view after appending a customer gains that customer's state, with no accounts. */
  twostate lemma CustomerAppendedView(bank: Bank)
    requires |bank.customers| == |old(bank.customers)| + 1
    requires bank.customers[..|old(bank.customers)|] == old(bank.customers)
    requires var c := bank.customers[|old(bank.customers)|]; !old(allocated(c)) && c.accounts == []
    requires forall i | 0 <= i < |old(bank.customers)| :: unchanged(bank.customers[i])
    requires forall a | a in old(bank.Accounts()) :: unchanged(a)
    ensures var c := bank.customers[|old(bank.customers)|];
      bank.View() == BankState(old(bank.View()).customers + [CustomerState(c.name, c.customerID, [])])
  {
    var cs := old(bank.customers);
    var c := bank.customers[|cs|];
    assert bank.customers == cs + [c];
    forall i | 0 <= i < |cs| ensures cs[i].State() == old(cs[i].State()) {
      forall k | 0 <= k < |old(cs[i].accounts)| ensures unchanged(old(cs[i].accounts)[k]) {
        assert old(cs[i].accounts[k]) in old(bank.Accounts());
      }
      CustomerKept(cs[i]);
    }
    assert StatesOf(cs) == old(StatesOf(cs));
    EmptyCustomerAppend(cs, c);
  }

  /** In a valid bank, two indices hold two different customer objects. */
  lemma CustomersDiffer(bank: Bank, i: nat, j: nat)
    requires bank.Valid() && i != j && i < |bank.customers| && j < |bank.customers|
    ensures bank.customers[i] != bank.customers[j]
  {
    if i < j {
      assert CustomersApart(bank.customers, i, j);
    } else {
      assert CustomersApart(bank.customers, j, i);
    }
  }

  /** In a valid bank, two locations hold two different account objects. */
  lemma DistinctAt(bank: Bank, m: Location, l: Location)
    requires bank.Valid() && m != l
    requires m.customer < |bank.customers| && m.account < |bank.customers[m.customer].accounts|
    requires l.customer < |bank.customers| && l.account < |bank.customers[l.customer].accounts|
    ensures bank.At(m) != bank.At(l)
  {
    assert AccountsApart(bank.customers, m.customer, m.account, l.customer, l.account);
  }

  /**
   * Neither the bank nor any customer changed: the object tree is as it was, and the
   * view holds at every location the old and the new state of the account object there.
   */
  twostate lemma OnlyAccountsChanged(bank: Bank)
    requires old(bank.Valid())
    requires unchanged(bank)
    requires forall i | 0 <= i < |bank.customers| :: unchanged(bank.customers[i])
    ensures bank.Valid() && bank.Repr() == old(bank.Repr()) && bank.Accounts() == old(bank.Accounts())
    ensures SameShape(old(bank.View()), bank.View())
    ensures forall m | ValidLocation(old(bank.View()), m) ::
      m.customer < |bank.customers| && m.account < |bank.customers[m.customer].accounts| &&
      ValidLocation(bank.View(), m) &&
      AccountAt(old(bank.View()), m) == old(bank.At(m).State()) &&
      AccountAt(bank.View(), m) == bank.At(m).State()
  {
    forall m | ValidLocation(old(bank.View()), m)
      ensures m.customer < |bank.customers| && m.account < |bank.customers[m.customer].accounts|
      ensures ValidLocation(bank.View(), m) && AccountAt(bank.View(), m) == bank.At(m).State()
    {
      ViewAt(bank, m);
    }
  }

  /**
   * Only the account object at `l` changed, and neither the bank nor any customer did:
   * the view is the old one with that account's new state at `l`.
   */
  twostate lemma OneAccountChanged(bank: Bank, new l: Location)
    requires old(bank.Valid())
    requires l.customer < |old(bank.customers)| && l.account < |old(bank.customers[l.customer].accounts)|
    requires unchanged(bank)
    requires forall i | 0 <= i < |bank.customers| :: unchanged(bank.customers[i])
    requires forall a | a in bank.Accounts() && a != bank.At(l) :: unchanged(a)
    ensures bank.Valid() && bank.Repr() == old(bank.Repr())
    ensures ValidLocation(old(bank.View()), l)
    ensures bank.View() == WithAccount(old(bank.View()), l, bank.At(l).State())
  {
    OnlyAccountsChanged(bank);
    forall m | ValidLocation(old(bank.View()), m) && m != l
      ensures AccountAt(bank.View(), m) == AccountAt(old(bank.View()), m)
    {
      var a := bank.At(m);
      DistinctAt(bank, m, l);
      assert a in bank.Accounts() && old(bank.At(m)) == a;
      assert a.State() == old(a.State());
    }
    DiffersAtOne(old(bank.View()), bank.View(), l);
  }

  /**
   * Only the account objects at `l1` and `l2` changed (the same object when `l1 == l2`):
   * the view has both new states.
   */
  twostate lemma TwoAccountsChanged(bank: Bank, new l1: Location, new l2: Location)
    requires old(bank.Valid())
    requires l1.customer < |old(bank.customers)| && l1.account < |old(bank.customers[l1.customer].accounts)|
    requires l2.customer < |old(bank.customers)| && l2.account < |old(bank.customers[l2.customer].accounts)|
    requires unchanged(bank)
    requires forall i | 0 <= i < |bank.customers| :: unchanged(bank.customers[i])
    requires forall a | a in bank.Accounts() && a != bank.At(l1) && a != bank.At(l2) :: unchanged(a)
    ensures bank.Valid() && bank.Repr() == old(bank.Repr())
    ensures ValidLocation(old(bank.View()), l1) && ValidLocation(old(bank.View()), l2)
    ensures ValidLocation(WithAccount(old(bank.View()), l1, bank.At(l1).State()), l2)
    ensures bank.View() ==
      WithAccount(WithAccount(old(bank.View()), l1, bank.At(l1).State()), l2, bank.At(l2).State())
  {
    if l1 == l2 {
      OneAccountChanged(bank, l1);
      WithAccountTwice(old(bank.View()), l1, bank.At(l1).State(), bank.At(l1).State());
    } else {
      DistinctAccountsChanged(bank, l1, l2);
    }
  }

  twostate lemma DistinctAccountsChanged(bank: Bank, new l1: Location, new l2: Location)
    requires old(bank.Valid()) && l1 != l2
    requires l1.customer < |old(bank.customers)| && l1.account < |old(bank.customers[l1.customer].accounts)|
    requires l2.customer < |old(bank.customers)| && l2.account < |old(bank.customers[l2.customer].accounts)|
    requires unchanged(bank)
    requires forall i | 0 <= i < |bank.customers| :: unchanged(bank.customers[i])
    requires forall a | a in bank.Accounts() && a != bank.At(l1) && a != bank.At(l2) :: unchanged(a)
    ensures bank.Valid() && bank.Repr() == old(bank.Repr())
    ensures ValidLocation(old(bank.View()), l1) && ValidLocation(old(bank.View()), l2)
    ensures ValidLocation(WithAccount(old(bank.View()), l1, bank.At(l1).State()), l2)
    ensures bank.View() ==
      WithAccount(WithAccount(old(bank.View()), l1, bank.At(l1).State()), l2, bank.At(l2).State())
  {
    OnlyAccountsChanged(bank);
    forall m | ValidLocation(old(bank.View()), m) && m != l1 && m != l2
      ensures AccountAt(bank.View(), m) == AccountAt(old(bank.View()), m)
    {
      var a := bank.At(m);
      DistinctAt(bank, m, l1);
      DistinctAt(bank, m, l2);
      assert a in bank.Accounts() && old(bank.At(m)) == a;
      assert a.State() == old(a.State());
    }
    DiffersAtTwo(old(bank.View()), bank.View(), l1, l2);
  }

  /**
   * Customer `i` gained the new account `a` at the end of its list, and nothing else
   * changed: `a` joins the object tree, the tree stays a tree, and the state of `a` joins
   * that customer's accounts in the view.
   */
  twostate lemma AccountAppended(bank: Bank, new i: nat, new a: Account)
    requires old(bank.Valid()) && i < |old(bank.customers)|
    requires unchanged(bank) && !old(allocated(a))
    requires forall j | 0 <= j < |bank.customers| && j != i :: unchanged(bank.customers[j])
    requires bank.customers[i].accounts == old(bank.customers[i].accounts) + [a]
    requires forall x | x in old(bank.Accounts()) :: unchanged(x)
    ensures bank.Valid()
    ensures bank.Repr() == old(bank.Repr()) + {a}
    ensures var c := old(bank.View()).customers[i];
      bank.View() == BankState(old(bank.View()).customers[i := c.(accounts := c.accounts + [a.State()])])
  {
    AppendedAccountView(bank, i, a);
    AppendedAccountKeepsValid(bank, i, a);
    AppendedAccountObjects(bank, i, a);
  }

  twostate lemma AppendedAccountObjects(bank: Bank, new i: nat, new a: Account)
    requires i < |old(bank.customers)|
    requires unchanged(bank)
    requires forall j | 0 <= j < |bank.customers| && j != i :: unchanged(bank.customers[j])
    requires bank.customers[i].accounts == old(bank.customers[i].accounts) + [a]
    ensures bank.Accounts() == old(bank.Accounts()) + {a}
  {
    var cs := bank.customers;
    forall x | x in bank.Accounts() ensures x in old(bank.Accounts()) || x == a {
      var j, k :| 0 <= j < |cs| && 0 <= k < |cs[j].accounts| && x == cs[j].accounts[k];
      if x != a {
        assert k < |old(cs[j].accounts)| && x == old(cs[j].accounts[k]);
      }
    }
    forall x | x in old(bank.Accounts()) ensures x in bank.Accounts() {
      var j, k :| 0 <= j < |cs| && 0 <= k < |old(cs[j].accounts)| && x == old(cs[j].accounts[k]);
      assert x == cs[j].accounts[k];
    }
    assert a == cs[i].accounts[|cs[i].accounts| - 1];
  }

  twostate lemma AppendedAccountKeepsValid(bank: Bank, new i: nat, new a: Account)
    requires old(bank.Valid()) && i < |old(bank.customers)|
    requires unchanged(bank) && !old(allocated(a))
    requires forall j | 0 <= j < |bank.customers| && j != i :: unchanged(bank.customers[j])
    requires bank.customers[i].accounts == old(bank.customers[i].accounts) + [a]
    ensures bank.Valid()
  {
    var cs := bank.customers;
    assert forall j, j' | 0 <= j < j' < |cs| :: CustomersApart(cs, j, j');
    forall j, k, j', k' |
      0 <= j < |cs| && 0 <= k < |cs[j].accounts| && 0 <= j' < |cs| && 0 <= k' < |cs[j'].accounts|
      ensures AccountsApart(cs, j, k, j', k')
    {
      if cs[j].accounts[k] == cs[j'].accounts[k'] && cs[j].accounts[k] != a {
        assert k < |old(cs[j].accounts)| && k' < |old(cs[j'].accounts)|;
        assert old(AccountsApart(cs, j, k, j', k'));
      }
    }
  }

  twostate lemma AppendedAccountView(bank: Bank, new i: nat, new a: Account)
    requires old(bank.Valid()) && i < |old(bank.customers)|
    requires unchanged(bank) && !old(allocated(a))
    requires forall j | 0 <= j < |bank.customers| && j != i :: unchanged(bank.customers[j])
    requires bank.customers[i].accounts == old(bank.customers[i].accounts) + [a]
    requires forall x | x in old(bank.Accounts()) :: unchanged(x)
    ensures var c := old(bank.View()).customers[i];
      bank.View() == BankState(old(bank.View()).customers[i := c.(accounts := c.accounts + [a.State()])])
  {
    var cs := bank.customers;
    var c := old(bank.View()).customers[i];
    var v := BankState(old(bank.View()).customers[i := c.(accounts := c.accounts + [a.State()])]);
    forall j | 0 <= j < |cs| ensures bank.View().customers[j] == v.customers[j] {
      forall k | 0 <= k < |old(cs[j].accounts)| ensures unchanged(old(cs[j].accounts)[k]) {
        assert old(cs[j].accounts[k]) in old(bank.Accounts());
      }
      if j == i {
        CustomerAccountAdded(cs[j], a);
      } else {
        CustomerKept(cs[j]);
      }
    }
  }

  /** A customer whose object and accounts did not change reads out as before. */
  twostate lemma CustomerKept(c: Customer)
    requires unchanged(c)
    requires forall k | 0 <= k < |old(c.accounts)| :: unchanged(old(c.accounts)[k])
    ensures c.State() == old(c.State())
  {
    assert forall k | 0 <= k < |c.accounts| :: c.accounts[k].State() == old(c.accounts[k].State());
  }

  /** A customer that gained the account `a`, its older accounts unchanged, reads out with `a` appended. */
  twostate lemma CustomerAccountAdded(c: Customer, new a: Account)
    requires c.accounts == old(c.accounts) + [a]
    requires forall k | 0 <= k < |old(c.accounts)| :: unchanged(old(c.accounts)[k])
    ensures c.State() == old(c.State()).(accounts := old(c.State()).accounts + [a.State()])
  {
    assert forall k | 0 <= k < |old(c.accounts)| :: c.accounts[k].State() == old(c.accounts[k].State());
  }

  /**
   * The account objects at `from` and `to` (possibly the same object) changed as
   * `from.transfer(to, amount)` changes them, and nothing else changed: the view is the
   * old one transferred.
   */
  twostate lemma TransferView(bank: Bank, new from: Location, new to: Location, new amount: int)
    requires old(bank.Valid())
    requires from.customer < |old(bank.customers)| && from.account < |old(bank.customers[from.customer].accounts)|
    requires to.customer < |old(bank.customers)| && to.account < |old(bank.customers[to.customer].accounts)|
    requires unchanged(bank)
    requires forall i | 0 <= i < |bank.customers| :: unchanged(bank.customers[i])
    requires forall a | a in bank.Accounts() && a != bank.At(from) && a != bank.At(to) :: unchanged(a)
    requires var src := old(bank.At(from).State());
      if from == to then
        bank.At(from).State() == if amount > src.balance then src else Deposited(Withdrawn(src, amount), amount)
      else
        bank.At(from).State() == Withdrawn(src, amount) &&
        bank.At(to).State() == if amount > src.balance then old(bank.At(to).State()) else Deposited(old(bank.At(to).State()), amount)
    ensures bank.Valid() && bank.Repr() == old(bank.Repr())
    ensures ValidLocation(old(bank.View()), from) && ValidLocation(old(bank.View()), to)
    ensures bank.View() == Transferred(old(bank.View()), from, to, amount)
  {
    TwoAccountsChanged(bank, from, to);
    TransferredByAccounts(old(bank.View()), from, to, amount, bank.At(from).State(), bank.At(to).State());
  }
}
