/**
 * The bank's state as values: what the objects of module Banking hold, read out as a
 * tree of datatypes, and what one menu choice of the console loop does to it.
 * Module Banking and module Console are proved against the functions here; the lemmas
 * here state what the program promises about those functions.
 *
 * Amounts are whole cents (`int`); the program itself uses `double`.
 */
module Ledger {
  import opened Wrappers

  // ---------------------------------------------------------------------------
  // Data model
  // ---------------------------------------------------------------------------

  /** The two kinds of entry an account's log holds ("Deposit" and "Withdrawal"). */
  datatype Kind = Deposit | Withdrawal

  /** One completed monetary event; never changed once recorded. */
  datatype Transaction = Transaction(kind: Kind, amount: int, date: string)

  /**
   * The date stamped on every transaction. The program stamps the preprocessor's build
   * date and time, so every transaction of a run carries the same string; its content is
   * never inspected, so this placeholder stands for it.
   */
  const BuildStamp: string := "build date and time"

  datatype AccountState = AccountState(number: int, balance: int, log: seq<Transaction>)

  datatype CustomerState = CustomerState(name: string, id: int, accounts: seq<AccountState>)

  datatype BankState = BankState(customers: seq<CustomerState>)

  /** Where an account sits in the tree: the index of its customer, then of the account. */
  datatype Location = Location(customer: nat, account: nat)

  /** The account the constructor of an account builds: no transactions yet. */
  function NewAccount(number: int, initialBalance: int): AccountState
  {
    AccountState(number, initialBalance, [])
  }

  /** The account after `deposit(amount)`: no check of any kind. */
  function Deposited(a: AccountState, amount: int): AccountState
  {
    a.(balance := a.balance + amount, log := a.log + [Transaction(Deposit, amount, BuildStamp)])
  }

  /** The account after `withdraw(amount)`: refused, with nothing changed, when the amount exceeds the balance. */
  function Withdrawn(a: AccountState, amount: int): AccountState
  {
    if amount > a.balance then a
    else a.(balance := a.balance - amount, log := a.log + [Transaction(Withdrawal, amount, BuildStamp)])
  }

  // ---------------------------------------------------------------------------
  // Lookup: a linear scan that stops at the first match
  // ---------------------------------------------------------------------------

  /** The index of the first occurrence of `key` in `keys`, or None when there is none. */
  function FirstMatch(keys: seq<int>, key: int): (r: Option<nat>)
    ensures r.Some? ==> r.value < |keys| && keys[r.value] == key
    ensures r.Some? ==> forall j :: 0 <= j < r.value ==> keys[j] != key
    ensures r.None? <==> key !in keys
  {
    if |keys| == 0 then None
    else if keys[0] == key then Some(0)
    else match FirstMatch(keys[1..], key)
      case None => None
      case Some(j) => Some(j + 1)
  }

  function CustomerIDs(cs: seq<CustomerState>): seq<int>
  {
    seq(|cs|, i requires 0 <= i < |cs| => cs[i].id)
  }

  function AccountNumbers(accounts: seq<AccountState>): seq<int>
  {
    seq(|accounts|, k requires 0 <= k < |accounts| => accounts[k].number)
  }

  /** A scan that stops at the first index holding the key has found what FirstMatch finds. */
  lemma FirstMatchAt(keys: seq<int>, key: int, k: nat)
    requires k < |keys| && keys[k] == key
    requires forall j :: 0 <= j < k ==> keys[j] != key
    ensures FirstMatch(keys, key) == Some(k)
  {
  }

  /** Appending a key never changes where an earlier key is found first; an absent key is found at the end. */
  lemma FirstMatchAppend(keys: seq<int>, k: int, key: int)
    ensures FirstMatch(keys + [k], key) ==
      if key in keys then FirstMatch(keys, key)
      else if k == key then Some(|keys|)
      else None
  {
    var ks := keys + [k];
    if key in keys {
      var j := FirstMatch(keys, key).value;
      assert forall i :: 0 <= i < j ==> ks[i] == keys[i];
      FirstMatchAt(ks, key, j);
    } else if k == key {
      assert forall i :: 0 <= i < |keys| ==> ks[i] == keys[i];
      FirstMatchAt(ks, key, |keys|);
    } else {
      assert key !in ks;
    }
  }

  // ---------------------------------------------------------------------------
  // Accounts addressed by location
  // ---------------------------------------------------------------------------

  predicate ValidLocation(b: BankState, l: Location)
  {
    l.customer < |b.customers| && l.account < |b.customers[l.customer].accounts|
  }

  function AccountAt(b: BankState, l: Location): AccountState
    requires ValidLocation(b, l)
  {
    b.customers[l.customer].accounts[l.account]
  }

  /** The same customers (names and IDs) with the same number of accounts each. */
  predicate SameShape(b: BankState, b': BankState)
  {
    |b'.customers| == |b.customers| &&
    forall i :: 0 <= i < |b.customers| ==>
      b'.customers[i].name == b.customers[i].name &&
      b'.customers[i].id == b.customers[i].id &&
      |b'.customers[i].accounts| == |b.customers[i].accounts|
  }

  /** The bank with the account at `l` replaced by `a`: one account changes, nothing else does. */
  function WithAccount(b: BankState, l: Location, a: AccountState): (r: BankState)
    requires ValidLocation(b, l)
    ensures SameShape(b, r)
    ensures forall m :: ValidLocation(b, m) ==>
      ValidLocation(r, m) && AccountAt(r, m) == if m == l then a else AccountAt(b, m)
  {
    var c := b.customers[l.customer];
    BankState(b.customers[l.customer := c.(accounts := c.accounts[l.account := a])])
  }

  /** Two banks with the same shape whose accounts agree at every location are the same bank. */
  lemma SameAccountsSameBank(b: BankState, b': BankState)
    requires SameShape(b, b')
    requires forall l :: ValidLocation(b, l) ==> ValidLocation(b', l) && AccountAt(b', l) == AccountAt(b, l)
    ensures b == b'
  {
    forall i | 0 <= i < |b.customers| ensures b'.customers[i] == b.customers[i] {
      forall k | 0 <= k < |b.customers[i].accounts|
        ensures b'.customers[i].accounts[k] == b.customers[i].accounts[k]
      {
        assert ValidLocation(b, Location(i, k));
      }
    }
  }

  /** Writing back the account that is already at `l` changes nothing. */
  lemma WithSameAccount(b: BankState, l: Location)
    requires ValidLocation(b, l)
    ensures WithAccount(b, l, AccountAt(b, l)) == b
  {
    var c := b.customers[l.customer];
    assert c.accounts[l.account := c.accounts[l.account]] == c.accounts;
    assert b.customers[l.customer := c] == b.customers;
  }

  /** Of two writes to the same location, the second one wins. */
  lemma WithAccountTwice(b: BankState, l: Location, a1: AccountState, a2: AccountState)
    requires ValidLocation(b, l)
    ensures ValidLocation(WithAccount(b, l, a1), l)
    ensures WithAccount(WithAccount(b, l, a1), l, a2) == WithAccount(b, l, a2)
  {
    var c := b.customers[l.customer];
    assert c.accounts[l.account := a1][l.account := a2] == c.accounts[l.account := a2];
  }

  /** A bank of the same shape that differs from `b` at most at `l` is `b` with the account at `l` replaced. */
  lemma DiffersAtOne(b: BankState, b': BankState, l: Location)
    requires ValidLocation(b, l) && SameShape(b, b')
    requires forall m | ValidLocation(b, m) && m != l :: ValidLocation(b', m) && AccountAt(b', m) == AccountAt(b, m)
    ensures ValidLocation(b', l) && b' == WithAccount(b, l, AccountAt(b', l))
  {
    SameAccountsSameBank(WithAccount(b, l, AccountAt(b', l)), b');
  }

  /** The same for a bank that differs from `b` at most at two distinct locations. */
  lemma DiffersAtTwo(b: BankState, b': BankState, l1: Location, l2: Location)
    requires ValidLocation(b, l1) && ValidLocation(b, l2) && l1 != l2 && SameShape(b, b')
    requires forall m | ValidLocation(b, m) && m != l1 && m != l2 ::
      ValidLocation(b', m) && AccountAt(b', m) == AccountAt(b, m)
    ensures ValidLocation(b', l1) && ValidLocation(b', l2)
    ensures b' == WithAccount(WithAccount(b, l1, AccountAt(b', l1)), l2, AccountAt(b', l2))
  {
    var r1 := WithAccount(b, l1, AccountAt(b', l1));
    DiffersAtOne(r1, b', l2);
  }

  /**
   * The bank after `from.transfer(to, amount)`: the guard of the transfer, then a
   * withdrawal from the source and a deposit into the target, in that order. When the
   * two locations are the same account the deposit applies to the withdrawn account.
   */
  function Transferred(b: BankState, from: Location, to: Location, amount: int): BankState
    requires ValidLocation(b, from) && ValidLocation(b, to)
  {
    var src := AccountAt(b, from);
    if amount > src.balance then b
    else
      var b1 := WithAccount(b, from, Withdrawn(src, amount));
      WithAccount(b1, to, Deposited(AccountAt(b1, to), amount))
  }

  /**
   * A transfer is the bank with the source account replaced and then the target account
   * replaced, by the new states that `from.transfer(to, amount)` gives them; when source
   * and target are one account, both replacements are that account's final state.
   */
  lemma TransferredByAccounts(b: BankState, from: Location, to: Location, amount: int,
                              src': AccountState, dst': AccountState)
    requires ValidLocation(b, from) && ValidLocation(b, to)
    requires var src := AccountAt(b, from);
      if from == to then
        src' == dst' && src' == if amount > src.balance then src else Deposited(Withdrawn(src, amount), amount)
      else
        src' == Withdrawn(src, amount) &&
        dst' == if amount > src.balance then AccountAt(b, to) else Deposited(AccountAt(b, to), amount)
    ensures ValidLocation(WithAccount(b, from, src'), to)
    ensures WithAccount(WithAccount(b, from, src'), to, dst') == Transferred(b, from, to, amount)
  {
    if from == to {
      WithAccountTwice(b, from, src', src');
      if amount > AccountAt(b, from).balance {
        WithSameAccount(b, from);
      } else {
        WithAccountTwice(b, from, Withdrawn(AccountAt(b, from), amount), src');
      }
    } else if amount > AccountAt(b, from).balance {
      WithSameAccount(b, from);
      WithSameAccount(b, to);
    }
  }

  /** A refused transfer changes no account at all. */
  lemma RefusedTransferChangesNothing(b: BankState, from: Location, to: Location, amount: int)
    requires ValidLocation(b, from) && ValidLocation(b, to)
    requires amount > AccountAt(b, from).balance
    ensures Transferred(b, from, to, amount) == b
  {
  }

  /**
   * A transfer between two different accounts: the source loses `amount` and logs one
   * Withdrawal, the target gains `amount` and logs one Deposit, every other account is
   * untouched.
   */
  lemma TransferBetween(b: BankState, from: Location, to: Location, amount: int, m: Location)
    requires ValidLocation(b, from) && ValidLocation(b, to) && ValidLocation(b, m)
    requires from != to && amount <= AccountAt(b, from).balance
    ensures var r := Transferred(b, from, to, amount);
      SameShape(b, r) && ValidLocation(r, m) &&
      AccountAt(r, m).number == AccountAt(b, m).number &&
      (m == from ==>
        AccountAt(r, m).balance == AccountAt(b, m).balance - amount &&
        AccountAt(r, m).log == AccountAt(b, m).log + [Transaction(Withdrawal, amount, BuildStamp)]) &&
      (m == to ==>
        AccountAt(r, m).balance == AccountAt(b, m).balance + amount &&
        AccountAt(r, m).log == AccountAt(b, m).log + [Transaction(Deposit, amount, BuildStamp)]) &&
      (m != from && m != to ==> AccountAt(r, m) == AccountAt(b, m))
  {
  }

  /**
   * A transfer from an account to itself (the same customer and account entered twice):
   * the balance ends where it started and the log gains a Withdrawal and then a Deposit.
   */
  lemma TransferToSelf(b: BankState, from: Location, amount: int, m: Location)
    requires ValidLocation(b, from) && ValidLocation(b, m)
    requires amount <= AccountAt(b, from).balance
    ensures var r := Transferred(b, from, from, amount);
      SameShape(b, r) && ValidLocation(r, m) &&
      (m == from ==>
        AccountAt(r, m).number == AccountAt(b, m).number &&
        AccountAt(r, m).balance == AccountAt(b, m).balance &&
        AccountAt(r, m).log == AccountAt(b, m).log +
          [Transaction(Withdrawal, amount, BuildStamp), Transaction(Deposit, amount, BuildStamp)]) &&
      (m != from ==> AccountAt(r, m) == AccountAt(b, m))
  {
  }

  // ---------------------------------------------------------------------------
  // Totals over the whole bank
  // ---------------------------------------------------------------------------

  function SumOf(accounts: seq<AccountState>, f: AccountState -> int): int
  {
    if accounts == [] then 0 else f(accounts[0]) + SumOf(accounts[1..], f)
  }

  function BankSum(cs: seq<CustomerState>, f: AccountState -> int): int
  {
    if cs == [] then 0 else SumOf(cs[0].accounts, f) + BankSum(cs[1..], f)
  }

  function Balance(a: AccountState): int { a.balance }

  function LogLength(a: AccountState): int { |a.log| }

  /** The money held by all accounts of all customers. */
  function TotalBalance(b: BankState): int
  {
    BankSum(b.customers, Balance)
  }

  /** The number of transactions recorded in all logs. */
  function TransactionCount(b: BankState): int
  {
    BankSum(b.customers, LogLength)
  }

  lemma {:induction false} SumOfUpdate(s: seq<AccountState>, k: nat, a: AccountState, f: AccountState -> int)
    requires k < |s|
    ensures SumOf(s[k := a], f) == SumOf(s, f) - f(s[k]) + f(a)
  {
    if k == 0 {
      assert s[k := a][1..] == s[1..];
    } else {
      assert s[k := a][1..] == s[1..][k - 1 := a];
      SumOfUpdate(s[1..], k - 1, a, f);
    }
  }

  lemma {:induction false} SumOfAppend(s: seq<AccountState>, a: AccountState, f: AccountState -> int)
    ensures SumOf(s + [a], f) == SumOf(s, f) + f(a)
  {
    if s != [] {
      assert (s + [a])[1..] == s[1..] + [a];
      SumOfAppend(s[1..], a, f);
    }
  }

  lemma {:induction false} BankSumUpdate(cs: seq<CustomerState>, i: nat, c: CustomerState, f: AccountState -> int)
    requires i < |cs|
    ensures BankSum(cs[i := c], f) == BankSum(cs, f) - SumOf(cs[i].accounts, f) + SumOf(c.accounts, f)
  {
    if i == 0 {
      assert cs[i := c][1..] == cs[1..];
    } else {
      assert cs[i := c][1..] == cs[1..][i - 1 := c];
      BankSumUpdate(cs[1..], i - 1, c, f);
    }
  }

  lemma {:induction false} BankSumAppend(cs: seq<CustomerState>, c: CustomerState, f: AccountState -> int)
    ensures BankSum(cs + [c], f) == BankSum(cs, f) + SumOf(c.accounts, f)
  {
    if cs != [] {
      assert (cs + [c])[1..] == cs[1..] + [c];
      BankSumAppend(cs[1..], c, f);
    }
  }

  /** Replacing one account changes a bank-wide sum by exactly the difference between the two accounts. */
  lemma WithAccountSum(b: BankState, l: Location, a: AccountState, f: AccountState -> int)
    requires ValidLocation(b, l)
    ensures BankSum(WithAccount(b, l, a).customers, f) == BankSum(b.customers, f) - f(AccountAt(b, l)) + f(a)
  {
    var c := b.customers[l.customer];
    SumOfUpdate(c.accounts, l.account, a, f);
    BankSumUpdate(b.customers, l.customer, c.(accounts := c.accounts[l.account := a]), f);
  }

  /** A transfer moves money without creating or destroying any, also from an account to itself. */
  lemma TransferConservesTotal(b: BankState, from: Location, to: Location, amount: int)
    requires ValidLocation(b, from) && ValidLocation(b, to)
    ensures TotalBalance(Transferred(b, from, to, amount)) == TotalBalance(b)
  {
    var src := AccountAt(b, from);
    if amount <= src.balance {
      var b1 := WithAccount(b, from, Withdrawn(src, amount));
      WithAccountSum(b, from, Withdrawn(src, amount), Balance);
      WithAccountSum(b1, to, Deposited(AccountAt(b1, to), amount), Balance);
    }
  }

  /** A transfer that passes the guard records exactly two transactions, also from an account to itself. */
  lemma TransferRecordsTwo(b: BankState, from: Location, to: Location, amount: int)
    requires ValidLocation(b, from) && ValidLocation(b, to)
    requires amount <= AccountAt(b, from).balance
    ensures TransactionCount(Transferred(b, from, to, amount)) == TransactionCount(b) + 2
  {
    var src := AccountAt(b, from);
    var b1 := WithAccount(b, from, Withdrawn(src, amount));
    WithAccountSum(b, from, Withdrawn(src, amount), LogLength);
    WithAccountSum(b1, to, Deposited(AccountAt(b1, to), amount), LogLength);
  }
}
