/**
 * The account registry of the bank manager: an `Account` record, a `Bank`
 * that owns a name and a growing list of accounts, the constructor that
 * starts a bank with no accounts, and `create_account`, which appends one
 * account without checking anything about it.
 */
module BankManager {

  /** The values of a Rust `i32`, the type of an account id. */
  newtype I32 = x: int | -0x8000_0000 <= x < 0x8000_0000

  /**
   * One account: its id and its balance. The balance is an `f64` that is
   * only ever stored, never computed with, so it is modelled as a `real`.
   */
  datatype Account = Account(id: I32, balance: real)

  /**
   * The account list after `create_account(id, balance)` on a bank whose
   * list was `accounts`: the old accounts, unchanged and in the same order,
   * followed by exactly one new account. There is no precondition: any id,
   * repeated or not, and any balance, zero or negative, is accepted.
   */
  function Created(accounts: seq<Account>, id: I32, balance: real): (r: seq<Account>)
    ensures |r| == |accounts| + 1
    ensures forall k :: 0 <= k < |accounts| ==> r[k] == accounts[k]
    ensures r[|accounts|].id == id && r[|accounts|].balance == balance
  {
    accounts + [Account(id, balance)]
  }

  /**
   * The account list of a bank that was built by `new` and then received
   * the `create_account` calls `calls`, in that order.
   */
  function Replay(calls: seq<(I32, real)>): (r: seq<Account>)
    ensures |r| == |calls|
    decreases |calls|
  {
    if calls == [] then []
    else
      var last := calls[|calls| - 1];
      Created(Replay(calls[..|calls| - 1]), last.0, last.1)
  }

  /** The k-th account of a bank is the one made by its k-th `create_account` call. */
  lemma {:induction false} ReplayInOrder(calls: seq<(I32, real)>)
    ensures forall k :: 0 <= k < |calls| ==>
      Replay(calls)[k].id == calls[k].0 && Replay(calls)[k].balance == calls[k].1
  {
    if calls != [] {
      var init := calls[..|calls| - 1];
      ReplayInOrder(init);
      forall k | 0 <= k < |calls| - 1
        ensures Replay(calls)[k] == Replay(init)[k] && init[k] == calls[k]
      {
      }
    }
  }

  /**
   * One more `create_account` call appends its account to the replayed list.
   * With the constructor's `accounts == []` (which is `Replay([])`) and
   * `CreateAccount`'s postcondition, this makes the account list of a `Bank`
   * built by `new` and then the calls `calls` equal to `Replay(calls)`.
   */
  lemma ReplayAppend(calls: seq<(I32, real)>, id: I32, balance: real)
    ensures Replay(calls + [(id, balance)]) == Created(Replay(calls), id, balance)
  {
  }

  /** True when some account in `accounts` has id `id`. */
  predicate HasId(accounts: seq<Account>, id: I32)
  {
    exists k :: 0 <= k < |accounts| && accounts[k].id == id
  }

  /** True when no two accounts in `accounts` share an id. */
  predicate UniqueIds(accounts: seq<Account>)
  {
    forall i, j :: 0 <= i < j < |accounts| ==> accounts[i].id != accounts[j].id
  }

  /**
   * Ids stay unique across `create_account` exactly when they were unique
   * before and the caller picked an id not yet in use. The operation does
   * not check this, so uniqueness is the caller's burden, not an invariant.
   */
  lemma UniqueIdsAfterCreate(accounts: seq<Account>, id: I32, balance: real)
    ensures UniqueIds(Created(accounts, id, balance)) <==> UniqueIds(accounts) && !HasId(accounts, id)
  {
  }

  /**
   * A bank: its name and its accounts, kept in insertion order. The
   * account list is owned by the bank and grows in place.
   */
  class Bank {
    var name: string
    var accounts: seq<Account>

    /** `Bank::new`: the given name and no accounts. */
    constructor (bankName: string)
      ensures name == bankName
      ensures accounts == []
    {
      name := bankName;
      accounts := [];
    }

    /**
     * `create_account`: pushes a new account with the given id and initial
     * balance onto the list. It always succeeds and the name stays as it was.
     */
    method CreateAccount(id: I32, initialBalance: real)
      modifies this
      ensures accounts == Created(old(accounts), id, initialBalance)
      ensures name == old(name)
    {
      var account := Account(id, initialBalance);
      accounts := accounts + [account];
    }
  }

  /**
   * The bank the program's driver builds: "Punjab National Bank" with
   * account 1 holding 1000.0 and then account 2 holding 500.0.
   */
  method MainScenario() returns (bank: Bank)
    ensures bank.name == "Punjab National Bank"
    ensures bank.accounts == [Account(1, 1000.0), Account(2, 500.0)]
    ensures bank.accounts == Replay([(1, 1000.0), (2, 500.0)])
  {
    bank := new Bank("Punjab National Bank");
    bank.CreateAccount(1, 1000.0);
    bank.CreateAccount(2, 500.0);
  }
}
