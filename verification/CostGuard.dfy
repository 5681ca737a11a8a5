/** The budget guard: one running total per process, checked after every response. */
module CostGuard {
  import opened Prelude

  datatype Currency = CNY | USD

  /** Amounts are exact integers in some fixed unit of `currency`. */
  datatype GuardState = GuardState(
    totalSpent: int,
    budgetLimit: int,
    currency: Currency,
    callCount: int,
    lastUpdated: Option<int>)

  /** How accumulate() ends: quietly, with CostGuardError or with ValueError. */
  datatype Verdict =
    | Accepted
    | OverBudget(currentSpent: int, attemptedAmount: int, budgetLimit: int, currency: Currency)
    | WrongCurrency

  function Opening(budgetLimit: int, currency: Currency): GuardState {
    GuardState(0, budgetLimit, currency, 0, None)
  }

  /** The state is updated before the limit is looked at. */
  function After(g: GuardState, cost: int, currency: Currency, now: int): GuardState {
    if currency != g.currency then g
    else g.(totalSpent := g.totalSpent + cost, callCount := g.callCount + 1, lastUpdated := Some(now))
  }

  function Judge(g: GuardState, cost: int, currency: Currency): Verdict {
    if currency != g.currency then WrongCurrency
    else if g.totalSpent + cost > g.budgetLimit then
      OverBudget(g.totalSpent + cost, cost, g.budgetLimit, g.currency)
    else Accepted
  }

  class CostGuard {
    var state: GuardState

    constructor (budgetLimit: int, currency: Currency)
      ensures state == Opening(budgetLimit, currency) == GuardState(0, budgetLimit, currency, 0, None)
    {
      state := Opening(budgetLimit, currency);
    }

    /** A copy: later accumulation does not reach it. */
    method Snapshot() returns (copy: GuardState)
      ensures copy == state
    {
      copy := state;
    }

    method Accumulate(cost: int, currency: Currency, now: int) returns (verdict: Verdict)
      modifies this
      ensures state == After(old(state), cost, currency, now)
      ensures verdict == Judge(old(state), cost, currency)
      ensures verdict.OverBudget? <==> currency == old(state.currency) && state.totalSpent > state.budgetLimit
      ensures verdict.WrongCurrency? <==> currency != old(state.currency)
      ensures if currency == old(state.currency)
              then state == old(state).(totalSpent := old(state.totalSpent) + cost,
                                        callCount := old(state.callCount) + 1, lastUpdated := Some(now))
              else state == old(state)
      ensures verdict.OverBudget? ==>
                verdict == OverBudget(state.totalSpent, cost, state.budgetLimit, state.currency)
    {
      if currency != state.currency {
        return WrongCurrency;
      }
      var newTotal := state.totalSpent + cost;
      state := state.(totalSpent := newTotal, callCount := state.callCount + 1, lastUpdated := Some(now));
      if newTotal > state.budgetLimit {
        return OverBudget(newTotal, cost, state.budgetLimit, state.currency);
      }
      return Accepted;
    }

    /** Only a test run may clear the total. */
    method ResetForTest(underTest: bool) returns (done: bool)
      modifies this
      ensures done == underTest
      ensures state == if underTest
                       then Opening(old(state.budgetLimit), old(state.currency))
                       else old(state)
    {
      if underTest {
        state := state.(totalSpent := 0, callCount := 0, lastUpdated := None);
      }
      done := underTest;
    }
  }
}
