# Bank manager account registry, in Dafny

This project models the account registry of the bank manager program
(`src/main.rs`). An `Account` holds an `i32` id and an `f64` balance. A `Bank`
owns a display name and a vector of accounts. `Bank::new` builds a bank with the
given name and no accounts. `Bank::create_account` pushes one new account onto
the vector. It always succeeds and checks nothing: a repeated id, a zero balance
and a negative balance are all accepted.

The model lives in one module, `BankManager` (`bank.dfy`):

- `Account` is a datatype, because an account is a value that is moved into the
  vector and never changed there.
- `Bank` is a class with the fields `name` and `accounts`. Its constructor is
  `Bank::new`. Its method `CreateAccount` changes the account list in place.
- `Created` states on values what one `create_account` does to the account list.
  `Replay` gives the account list of a bank built by `new` followed by a given
  sequence of `create_account` calls. The lemmas about the registry are stated
  over these two functions. They describe the class exactly: the constructor
  leaves `accounts == Replay([])`, and by `ReplayAppend` each `CreateAccount`
  turns `Replay(calls)` into `Replay(calls + [(id, balance)])`, so a `Bank`
  built by `new` and then any sequence of calls holds `Replay` of those calls.

The program's code has no deposit, withdrawal, balance query, history query,
transfer, error type or transaction log, and enforces neither unique ids nor
non-negative balances. The model has none of these, and it proves that ids stay
unique only when the caller supplies a fresh id.

## Model

| member | source | states |
|---|---|---|
| BankManager.Bank.constructor | src/main.rs:13-18 | `Bank::new` keeps the given name unchanged and starts with an empty account list |
| BankManager.Bank.CreateAccount | src/main.rs:20-27 | the new account list is `Created` of the old one with the given id and balance; the bank's name does not change; there is no precondition, so every call succeeds |
| BankManager.Created | src/main.rs:20-27 | after `create_account(id, b)` the list is exactly one longer, every earlier account is unchanged at its old position, and the last account has id `id` and balance `b`; no condition on the id or the balance |
| BankManager.Replay | src/main.rs:13-27 | a bank built by `new` and then n `create_account` calls holds exactly n accounts |
| BankManager.ReplayInOrder | src/main.rs:20-27 | the k-th account of such a bank has the id and balance of the k-th `create_account` call, so accounts are kept in insertion order |
| BankManager.ReplayAppend | src/main.rs:26 | one more `create_account` call appends its account after all the accounts made before it |
| BankManager.UniqueIdsAfterCreate | src/main.rs:20-27 | ids stay pairwise distinct after `create_account` if and only if they were distinct before and the new id was not already in use; the code does not check this, so a duplicate id is accepted |
| BankManager.MainScenario | src/main.rs:31-34 | the driver's bank is named "Punjab National Bank" and holds exactly the accounts (1, 1000.0) and then (2, 500.0), the list `Replay` gives for those two calls |

## Left out

- The console output of `main` (src/main.rs:32 and 36-43): printing the bank's name and each account is I/O only.
- The `Debug` formatting derived for `Account` (src/main.rs:1): a library printing facility.
- IEEE-754 semantics of the `f64` balance: the code never computes with a balance, so it is modelled as a `real`. NaN, the infinities and the sign of zero, which an `f64` can hold, have no `real` counterpart.
- The `name` field is a Rust `String` (UTF-8 bytes); it is modelled as a `string` of characters because nothing is done with it except storing it.
- Memory allocation and `Vec` growth: `push` in the model cannot fail, and a process that runs out of memory is not modelled.
- Deposit, withdrawal, balance and history queries, transfer, error kinds and a transaction history: they do not exist in the code, so nothing models them.
- Unique ids and non-negative balances as class invariants: the code enforces neither, so `Bank` has no such invariant.
