# go_study_project: pointer helpers and the funds transfer, in Dafny

This project models the two pieces of sequential logic in the Go study
repository and proves properties of them.

- `pointers.dfy` (module `Pointers`) models `task_two/pointers_example.go`:
  `addTen`, which adds 10 to the integer behind a pointer, and `doubleSlice`,
  which doubles every element of a slice in place. `addTen` appears twice: as
  a method on a one-field mutable `Cell` (the direct imperative reading), and
  as a pure function `AddTen` over an explicit memory (address to value) and a
  pointer that may be nil, so that the nil-dereference panic and the frame
  ("no other variable changes") are part of its contract. `doubleSlice` is a
  method over a Dafny array, with a loop invariant that says the prefix is
  already doubled and the suffix is untouched; its meaning is the reference
  function `Doubled`, whose inverse is `Halved`.
- `transfer.dfy` (module `Transfer`) models the transaction script in
  `task_three/sql2.go`. The `accounts` table is a map from account id to
  balance, the `transactions` table a sequence of `(from, to, amount)` rows,
  and the script a pure function from the state before to the decision
  (commit or roll back) and the visible state after. The file's IF … THEN …
  END IF is only accepted by MySQL inside a stored program, so the model reads
  it as the body of such a procedure. Each SQL statement is its own function
  (`Select`, `AtLeast`, `Update`, `Insert`), including SQL's behaviour on a
  missing row: the scalar subquery yields NULL, `NULL >= 100` is unknown so
  the IF would take its ELSE branch, and an UPDATE that matches no row does
  nothing.

## Model

| member | source | states |
|---|---|---|
| Pointers.AddTenInPlace | task_two/pointers_example.go:6-8 | the variable behind the pointer ends at its old value plus exactly 10; only that variable may change |
| Pointers.AddTen | task_two/pointers_example.go:6-8 | a nil pointer panics and only a nil pointer does; otherwise the target cell gains exactly 10, no variable appears or disappears, and every other cell keeps its value |
| Pointers.AddTenUndo | task_two/pointers_example.go:7 | subtracting 10 from the touched cell gives back the memory before the call, so the call changed nothing else |
| Pointers.AddTenCommutes | task_two/pointers_example.go:7 | calls through two different pointers give the same memory in either order |
| Pointers.Doubled | task_two/pointers_example.go:11-15 | the doubled slice has the original length and holds 2 × the original value at every index (so an empty slice stays empty) |
| Pointers.HalvedDoubled | task_two/pointers_example.go:12-13 | halving every element of the doubled slice gives the original slice back: no information is lost |
| Pointers.SumDoubled | task_two/pointers_example.go:12-13 | the total of the doubled slice is twice the original total |
| Pointers.DoubleSlice | task_two/pointers_example.go:11-15 | a nil slice pointer panics and only a nil one does; otherwise the array keeps its length and ends equal to `Doubled` of its old contents, an empty array being left as it was; each loop step keeps the prefix doubled and the suffix untouched |
| Pointers.RunExample | task_two/pointers_example.go:19-28 | the worked example: 5 becomes 15, and [1, 2, 3, 4] becomes [2, 4, 6, 8] |
| Transfer.Select | task_three/sql2.go:4 | reading a balance yields NULL exactly when the account row does not exist, and the stored balance otherwise |
| Transfer.AtLeast | task_three/sql2.go:7 | the comparison `@balance_a >= 100` is unknown exactly when the balance is NULL, true exactly when it is a value of at least 100, and false exactly when it is a smaller value; only true takes the commit branch |
| Transfer.Update | task_three/sql2.go:9-12 | an UPDATE restricted by `WHERE id = …` adjusts that one row by the delta, leaves every other row and the log unchanged, and is a no-op when the row is missing |
| Transfer.Insert | task_three/sql2.go:15-16 | the insert appends exactly one row after the unchanged earlier rows and leaves balances alone |
| Transfer.Effects | task_three/sql2.go:8-16 | the commit branch debits account 1 by 100, credits account 2 by 100, appends the record (1, 2, 100), and touches no other account |
| Transfer.ScriptAsWritten | task_three/sql2.go:1-23 | the script commits exactly when account 1 exists with a balance of at least 100; a rollback leaves the state as it was; a commit makes all three effects visible |
| Transfer.GuardedTransfer | task_three/sql2.go:1-23 | the guarded transfer commits exactly when account 1 holds at least 100 and account 2 exists; a rollback changes nothing; a commit leaves account 1 at its old balance minus 100 and never negative, account 2 at its old balance plus 100, and the log extended by exactly (1, 2, 100); no other account changes in either branch |
| Transfer.Conservation | task_three/sql2.go:9-22 | the sum of the balances of accounts 1 and 2 is the same before and after, in both branches |
| Transfer.ConservationEverywhere | task_three/sql2.go:7-22 | on every state, reading a missing account as 0, the guarded transfer keeps the sum of accounts 1 and 2 unchanged, including when account 2 does not exist |
| Transfer.AllOrNothing | task_three/sql2.go:1-22 | the visible state is either the state before or the state with debit, credit and insert all applied, and the latter only on commit |
| Transfer.InclusiveBoundary | task_three/sql2.go:7-9 | a balance of exactly 100 commits and leaves account 1 at 0; a balance of 99 rolls back |
| Transfer.MissingSourceRollsBack | task_three/sql2.go:4-7 | with no account 1 the balance reads as NULL and both the script and the guarded transfer roll back with nothing changed |
| Transfer.ScriptMatchesTransfer | task_three/sql2.go:7-19 | whenever account 2 exists, the script as written and the guarded transfer agree on every input |
| Transfer.ScriptLosesFundsWithoutTarget | task_three/sql2.go:12 | with account 1 at 100 and no account 2, the script as written commits, account 1 drops to 0 and no account receives the 100, so the sum of accounts 1 and 2 (a missing one read as 0) falls by 100 |
| Transfer.RepeatedTransfers | task_three/sql2.go:7-9 | running the transfer n times from a non-negative balance x commits exactly min(n, x / 100) times, moves 100 per commit from account 1 to account 2, keeps the earlier log and appends exactly one (1, 2, 100) record per commit, never makes account 1 negative, and changes no other account |

## Left out

- Go's 64-bit `int`: every integer is Dafny's unbounded `int`, so an `addTen` or `doubleSlice` that overflows and wraps around in Go is not modelled.
- Pointers.AddTenInPlace: a nil pointer is not modelled here, because a Dafny object reference of type `Cell` is never null; the nil case is in `Pointers.AddTen`.
- The `fmt.Println` output of `main` in task_two/pointers_example.go; `Pointers.RunExample` keeps only the values it prints.
- The row lock (`FOR UPDATE`) and the real COMMIT/ROLLBACK machinery of task_three/sql2.go: the model is the sequential effect on an abstract state, with the transaction's working state hidden until the decision.
- The file as a plain script: MySQL accepts IF … THEN … END IF only inside a stored program, so run as a script line 7 of task_three/sql2.go is a syntax error; the model reads the file as the body of a stored procedure.
- The session variable `@balance_a` set at task_three/sql2.go:4, which outlives both COMMIT and ROLLBACK: an `Outcome` holds only the decision and the two tables, not session state.
- Duplicate account ids: `balances` is a map, so it assumes `id` is unique in `accounts`; with duplicate ids the scalar subquery at task_three/sql2.go:4 would raise an error instead of returning a value.
- The table schemas, which are not part of the repository: balances are unbounded integers (no DECIMAL precision or range), the `transactions` table has no generated id or timestamp, and no foreign keys or CHECK constraints are assumed.
- The concurrency demos (mutex counter, atomic counter, channels, goroutines), the shapes and employee demo in task_one/main.go, and the SQLite/GORM database code in task_three/sql3.go and task_three/sql4.go: they are concurrency, floating point or calls into a database library, not sequential logic with a statable effect. The implementation of `singleNumber` tested by task_one/test2_test.go is not part of this model.

## Findings

| source | as written | input that shows it | evidently intended | confidence | as-written member | corrected member |
|---|---|---|---|---|---|---|
| task_three/sql2.go:7-19 | the guard checks only that account 1 holds at least 100; the credit `UPDATE … WHERE id = 2` silently matches no row when account 2 does not exist, and the script still commits the debit and the log record | `accounts` = {1: 100}, no row 2, empty `transactions` | commit only when account 2 exists too, so that the 100 debited is credited somewhere | medium, not executed; a foreign key on `to_account_id` in the (unseen) schema would make the INSERT fail instead | Transfer.ScriptLosesFundsWithoutTarget | Transfer.GuardedTransfer |
