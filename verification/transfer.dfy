/** Model of the funds-transfer transaction script in task_three/sql2.go.

    The script reads the balance of account 1 (under a row lock). When it is at
    least 100 it debits account 1 by 100, credits account 2 by 100, records the
    transfer in the `transactions` table and commits; otherwise it rolls back.
    Here the database is an immutable value (`Bank`) and the script a pure
    function from the state before to the decision and the state after. */
module Transfer {

  type AccountId = int

  /** A row of the `transactions` table: `(from_account_id, to_account_id, amount)`. */
  datatype Txn = Txn(from: AccountId, to: AccountId, amount: int)

  /** The two tables the script touches: `accounts` as a map from id to
      balance, and `transactions` in insertion order. */
  datatype Bank = Bank(balances: map<AccountId, int>, log: seq<Txn>)

  /** How the transaction ended. */
  datatype Decision = Committed | RolledBack

  /** The decision and the state that is visible once the transaction has ended. */
  datatype Outcome = Outcome(decision: Decision, state: Bank)

  /** A SQL integer value, which may be NULL. */
  datatype SqlInt = Null | Val(n: int)

  /** SQL's three truth values. */
  datatype SqlBool = True | False | Unknown

  /** The account debited, the account credited and the amount moved. */
  const Source: AccountId := 1
  const Target: AccountId := 2
  const Amount: int := 100

  /** The record the script inserts. */
  const Record: Txn := Txn(Source, Target, Amount)

  // ---------------------------------------------------------------------------
  // The statements of the script
  // ---------------------------------------------------------------------------

  /** `(SELECT balance FROM accounts WHERE id = id)`: a scalar subquery that
      finds no row yields NULL. */
  function Select(b: Bank, id: AccountId): (r: SqlInt)
    ensures r.Null? <==> id !in b.balances
    ensures r.Val? ==> r.n == b.balances[id]
  {
    if id in b.balances then Val(b.balances[id]) else Null
  }

  /** `v >= bound` in SQL's three-valued logic: any comparison with NULL is
      unknown. An IF takes its THEN branch only on `True`, so an unknown
      condition takes the ELSE branch. */
  function AtLeast(v: SqlInt, bound: int): (r: SqlBool)
    ensures r == Unknown <==> v.Null?
    ensures r == True <==> v.Val? && v.n >= bound
    ensures r == False <==> v.Val? && v.n < bound
  {
    match v
    case Null => Unknown
    case Val(n) => if n >= bound then True else False
  }

  /** `UPDATE accounts SET balance = balance + delta WHERE id = id`: adjusts
      the one matching row; when there is none, nothing changes and no error
      is raised. */
  function Update(b: Bank, id: AccountId, delta: int): (r: Bank)
    ensures r.log == b.log
    ensures r.balances.Keys == b.balances.Keys
    ensures id in b.balances ==> r.balances[id] == b.balances[id] + delta
    ensures forall k :: k in b.balances && k != id ==> r.balances[k] == b.balances[k]
    ensures id !in b.balances ==> r == b
  {
    if id in b.balances then b.(balances := b.balances[id := b.balances[id] + delta]) else b
  }

  /** `INSERT INTO transactions ...`: appends one row after all earlier ones. */
  function Insert(b: Bank, t: Txn): (r: Bank)
    ensures r.balances == b.balances
    ensures |r.log| == |b.log| + 1
    ensures r.log[..|b.log|] == b.log
    ensures r.log[|b.log|] == t
  {
    b.(log := b.log + [t])
  }

  /** The THEN branch: debit, credit and insert, in the script's order. */
  function Effects(b: Bank): (r: Bank)
    ensures r.balances.Keys == b.balances.Keys
    ensures Source in b.balances ==> r.balances[Source] == b.balances[Source] - Amount
    ensures Target in b.balances ==> r.balances[Target] == b.balances[Target] + Amount
    ensures forall k :: k in b.balances && k != Source && k != Target ==> r.balances[k] == b.balances[k]
    ensures r.log == b.log + [Record]
  {
    var debited := Update(b, Source, -Amount);
    var credited := Update(debited, Target, Amount);
    Insert(credited, Record)
  }

  // ---------------------------------------------------------------------------
  // The script as written, and the transfer it is meant to be
  // ---------------------------------------------------------------------------

  /** The script as written. It commits whenever account 1 holds at least 100,
      whether or not account 2 exists; the credit then matches no row and the
      100 debited from account 1 reaches no account. */
  function ScriptAsWritten(b: Bank): (r: Outcome)
    ensures r.decision == Committed <==> Source in b.balances && b.balances[Source] >= Amount
    ensures r.decision == RolledBack ==> r.state == b
    ensures r.decision == Committed ==> r.state == Effects(b)
  {
    var balanceA := Select(b, Source);
    if AtLeast(balanceA, Amount) == True then Outcome(Committed, Effects(b))
    else Outcome(RolledBack, b)
  }

  /** The transfer with the missing guard added: it commits only when account
      1 holds at least 100 and account 2 exists to receive the funds;
      otherwise it rolls back and nothing is visible. */
  function GuardedTransfer(b: Bank): (r: Outcome)
    ensures r.decision == Committed <==>
              Source in b.balances && b.balances[Source] >= Amount && Target in b.balances
    ensures r.decision == RolledBack ==> r.state == b
    ensures r.state.balances.Keys == b.balances.Keys
    ensures r.decision == Committed ==>
              && r.state.balances[Source] == b.balances[Source] - Amount
              && r.state.balances[Target] == b.balances[Target] + Amount
              && r.state.balances[Source] >= 0
              && r.state.log == b.log + [Record]
    ensures forall k :: k in b.balances && k != Source && k != Target ==>
              r.state.balances[k] == b.balances[k]
  {
    var balanceA := Select(b, Source);
    if AtLeast(balanceA, Amount) == True && Target in b.balances then Outcome(Committed, Effects(b))
    else Outcome(RolledBack, b)
  }

  // ---------------------------------------------------------------------------
  // Properties
  // ---------------------------------------------------------------------------

  /** The combined balance of the two accounts the script touches. */
  function PairSum(b: Bank): int
    requires Source in b.balances && Target in b.balances
  {
    b.balances[Source] + b.balances[Target]
  }

  /** Money moves between accounts 1 and 2 but is neither created nor lost,
      whichever way the transaction ends. */
  lemma Conservation(b: Bank)
    requires Source in b.balances && Target in b.balances
    ensures Target in GuardedTransfer(b).state.balances && Source in GuardedTransfer(b).state.balances
    ensures PairSum(GuardedTransfer(b).state) == PairSum(b)
  {
  }

  /** A missing account reads as a balance of 0. */
  function BalanceOrZero(b: Bank, id: AccountId): int
  {
    if id in b.balances then b.balances[id] else 0
  }

  /** Conservation on every state, with a missing account read as 0: the
      guarded transfer never moves money out of account 1 without it arriving
      in account 2. The script as written breaks this when account 2 is
      missing (see `ScriptLosesFundsWithoutTarget`). */
  lemma ConservationEverywhere(b: Bank)
    ensures var after := GuardedTransfer(b).state;
      BalanceOrZero(after, Source) + BalanceOrZero(after, Target)
      == BalanceOrZero(b, Source) + BalanceOrZero(b, Target)
  {
  }

  /** All or nothing: the visible state is either the state before, or the
      state after all three of debit, credit and insert; never a part of them. */
  lemma AllOrNothing(b: Bank)
    ensures GuardedTransfer(b).state == b || GuardedTransfer(b).state == Effects(b)
    ensures GuardedTransfer(b).state == Effects(b) ==> GuardedTransfer(b).decision == Committed
  {
  }

  /** The boundary is inclusive: exactly 100 commits and leaves account 1 at
      zero, while 99 rolls back. */
  lemma InclusiveBoundary(other: int)
    ensures var r := GuardedTransfer(Bank(map[Source := 100, Target := other], []));
      r.decision == Committed && r.state.balances[Source] == 0
    ensures GuardedTransfer(Bank(map[Source := 99, Target := other], [])).decision == RolledBack
  {
  }

  /** A missing account 1 reads as NULL, the guard is unknown and the
      transaction rolls back. */
  lemma MissingSourceRollsBack(b: Bank)
    requires Source !in b.balances
    ensures ScriptAsWritten(b) == Outcome(RolledBack, b)
    ensures GuardedTransfer(b) == Outcome(RolledBack, b)
  {
  }

  /** Whenever account 2 exists, the script as written and the guarded
      transfer do exactly the same thing. */
  lemma ScriptMatchesTransfer(b: Bank)
    requires Target in b.balances
    ensures ScriptAsWritten(b) == GuardedTransfer(b)
  {
  }

  /** The script as written with no account 2: it commits, account 1 loses
      100, and no account gains it. */
  lemma ScriptLosesFundsWithoutTarget()
    ensures var b := Bank(map[Source := 100], []);
      var r := ScriptAsWritten(b);
      && r.decision == Committed
      && r.state.balances == map[Source := 0]
      && r.state.log == [Record]
      && BalanceOrZero(r.state, Source) + BalanceOrZero(r.state, Target)
         == BalanceOrZero(b, Source) + BalanceOrZero(b, Target) - Amount
  {
  }

  // ---------------------------------------------------------------------------
  // Running the script repeatedly
  // ---------------------------------------------------------------------------

  /** The state after running the transfer `n` times in a row. */
  function RunTimes(b: Bank, n: nat): Bank
  {
    if n == 0 then b else GuardedTransfer(RunTimes(b, n - 1)).state
  }

  function Min(x: int, y: int): int
  {
    if x <= y then x else y
  }

  /** Because of the guard, re-running the transfer drains account 1 in steps
      of 100 and then stops: after `n` runs exactly `min(n, x / 100)` of them
      have committed, each appending one `Record` after the earlier log, account
      1 never goes negative and no other account changes. */
  lemma {:induction false} RepeatedTransfers(b: Bank, n: nat)
    requires Source in b.balances && Target in b.balances
    requires b.balances[Source] >= 0
    ensures var k := Min(n, b.balances[Source] / Amount);
      var s := RunTimes(b, n);
      && Source in s.balances && Target in s.balances
      && s.balances[Source] == b.balances[Source] - Amount * k
      && s.balances[Target] == b.balances[Target] + Amount * k
      && s.balances[Source] >= 0
      && |s.log| == |b.log| + k
      && s.log[..|b.log|] == b.log
      && (forall j :: |b.log| <= j < |s.log| ==> s.log[j] == Record)
      && s.balances.Keys == b.balances.Keys
      && (forall id :: id in b.balances && id != Source && id != Target ==>
            s.balances[id] == b.balances[id])
  {
    if n > 0 {
      RepeatedTransfers(b, n - 1);
    }
  }
}
