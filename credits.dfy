/**
 * The client-side credits ledger: one account record kept in browser storage
 * under the key "userCredits", and a provider that caches a copy of it for
 * the pages. Storage is a field of the provider and serialisation is the
 * identity; clock readings are passed in as opaque timestamps.
 */
module Credits {
  import opened Wrappers

  /** The service levels an account can be on. */
  datatype Plan = Free | Pro | Business

  /** A clock reading in its serialised form; the ledger only stores it. */
  type Timestamp = string

  /** The account record (UserCreditsData). JavaScript numbers are modelled as integers. */
  datatype Account = Account(
    available: int,
    used: int,
    plan: Plan,
    maxCredits: int,
    resetDate: Timestamp)

  /** Allowance of a first-time visitor on the free plan. */
  const FreeCredits: int := 5

  /** No credit is created or lost: what is left plus what was spent is the period's ceiling. */
  predicate Balanced(a: Account) {
    a.available + a.used == a.maxCredits
  }

  /**
   * fetchUserCredits: the stored record if there is one, otherwise the default
   * free-plan account, resetting at `nextMonth`. The default is not written back.
   */
  function Load(stored: Option<Account>, nextMonth: Timestamp): (a: Account)
    ensures stored.Some? ==> a == stored.value
    ensures stored.None? ==> a == Account(5, 0, Free, 5, nextMonth)
    ensures stored.None? ==> Balanced(a) && a.available >= 0
  {
    match stored
    case Some(record) => record
    case None => Account(FreeCredits, 0, Free, FreeCredits, nextMonth)
  }

  /**
   * The check-then-debit step of apiUseCredits on an account already read:
   * None when the balance is too small (nothing is written), otherwise the
   * account with `amount` moved from `available` to `used`.
   */
  function Debit(acc: Account, amount: int): (r: Option<Account>)
    ensures r.None? <==> acc.available < amount
    ensures r.Some? ==> r.value.used - acc.used == amount
    ensures r.Some? ==> r.value.available + r.value.used == acc.available + acc.used
    ensures r.Some? ==> r.value.available >= 0
    ensures r.Some? ==> r.value.plan == acc.plan && r.value.maxCredits == acc.maxCredits
                        && r.value.resetDate == acc.resetDate
    ensures r.Some? && Balanced(acc) ==> Balanced(r.value)
  {
    if acc.available < amount then None
    else Some(acc.(available := acc.available - amount, used := acc.used + amount))
  }

  /** The storage contents after one apiUseCredits(amount) call: the debited record, or the old contents. */
  function StoredAfterDebit(stored: Option<Account>, amount: int, nextMonth: Timestamp): Option<Account>
  {
    match Debit(Load(stored, nextMonth), amount)
    case Some(next) => Some(next)
    case None => stored
  }

  /** The storage contents after a run of sequential apiUseCredits calls, first amount first. */
  function RunDebits(stored: Option<Account>, amounts: seq<int>, nextMonth: Timestamp): Option<Account>
    decreases |amounts|
  {
    if amounts == [] then stored
    else RunDebits(StoredAfterDebit(stored, amounts[0], nextMonth), amounts[1..], nextMonth)
  }

  /** `n` requests of one credit each. */
  function UnitAmounts(n: nat): seq<int>
  {
    if n == 0 then [] else [1] + UnitAmounts(n - 1)
  }

  /**
   * Whatever amounts are requested, debits keep the ledger balanced, never
   * drive `available` below zero, and never touch the plan, the ceiling or
   * the reset date (there is no rollover code).
   */
  lemma {:induction false} RunDebitsKeepsInvariant(stored: Option<Account>, amounts: seq<int>, nextMonth: Timestamp)
    requires stored.Some? ==> Balanced(stored.value) && stored.value.available >= 0
    ensures var r := RunDebits(stored, amounts, nextMonth);
      r.Some? ==> Balanced(r.value) && r.value.available >= 0
    ensures var r := RunDebits(stored, amounts, nextMonth);
      r.Some? ==> r.value.plan == Load(stored, nextMonth).plan
                  && r.value.maxCredits == Load(stored, nextMonth).maxCredits
                  && r.value.resetDate == Load(stored, nextMonth).resetDate
    decreases |amounts|
  {
    if amounts != [] {
      var next := StoredAfterDebit(stored, amounts[0], nextMonth);
      RunDebitsKeepsInvariant(next, amounts[1..], nextMonth);
    }
  }

  /** `n` unit debits from an account holding at least `n` credits all succeed, one credit each. */
  lemma {:induction false} UnitDebitsDrain(acc: Account, n: nat, nextMonth: Timestamp)
    requires n <= acc.available
    ensures RunDebits(Some(acc), UnitAmounts(n), nextMonth)
            == Some(acc.(available := acc.available - n, used := acc.used + n))
    decreases n
  {
    if n > 0 {
      var next := acc.(available := acc.available - 1, used := acc.used + 1);
      assert StoredAfterDebit(Some(acc), 1, nextMonth) == Some(next);
      assert UnitAmounts(n)[1..] == UnitAmounts(n - 1);
      UnitDebitsDrain(next, n - 1, nextMonth);
    }
  }

  /**
   * Starting from empty storage, five one-credit debits end at five used and
   * none available, and a sixth is refused and writes nothing.
   */
  lemma FreshAccountScenario(nextMonth: Timestamp)
    ensures RunDebits(None, UnitAmounts(5), nextMonth) == Some(Account(0, 5, Free, 5, nextMonth))
    ensures Debit(Load(RunDebits(None, UnitAmounts(5), nextMonth), nextMonth), 1).None?
    ensures StoredAfterDebit(RunDebits(None, UnitAmounts(5), nextMonth), 1, nextMonth)
            == RunDebits(None, UnitAmounts(5), nextMonth)
  {
    var first := Account(4, 1, Free, 5, nextMonth);
    assert StoredAfterDebit(None, 1, nextMonth) == Some(first);
    assert UnitAmounts(5)[1..] == UnitAmounts(4);
    UnitDebitsDrain(first, 4, nextMonth);
  }

  /**
   * UserCreditsProvider together with the storage it reads and writes:
   * `stored` is the storage entry, `cached` the provider's `credits` state and
   * `loading` its loading flag.
   */
  class CreditsProvider {
    var stored: Option<Account>
    var cached: Option<Account>
    var loading: bool

    /** The cache holds what a load of the current storage returned at some clock reading. */
    ghost predicate Coherent()
      reads this
    {
      cached.Some? ==> cached.value == Load(stored, cached.value.resetDate)
    }

    /** The provider as first rendered: nothing cached yet and the loading flag up. */
    constructor (initial: Option<Account>)
      ensures stored == initial && cached == None && loading
      ensures Coherent()
    {
      stored := initial;
      cached := None;
      loading := true;
    }

    /** refreshCredits: reload from storage into the cache and lower the loading flag. */
    method RefreshCredits(nextMonth: Timestamp)
      modifies this`cached, this`loading
      ensures cached == Some(Load(stored, nextMonth)) && !loading
      ensures Coherent()
    {
      loading := true;
      var data := Load(stored, nextMonth);
      cached := Some(data);
      loading := false;
    }

    /**
     * apiUseCredits: read the stored record (or the default), refuse if the
     * balance is below `amount`, otherwise debit it and write it back.
     */
    method ApiUseCredits(amount: int, nextMonth: Timestamp) returns (ok: bool)
      modifies this`stored
      ensures ok <==> Load(old(stored), nextMonth).available >= amount
      ensures stored == StoredAfterDebit(old(stored), amount, nextMonth)
      ensures !ok ==> stored == old(stored)
    {
      var credits: Account;
      if stored.Some? {
        credits := stored.value;
      } else {
        credits := Load(stored, nextMonth);
      }
      if credits.available < amount {
        return false;
      }
      credits := credits.(available := credits.available - amount);
      credits := credits.(used := credits.used + amount);
      stored := Some(credits);
      ok := true;
    }

    /**
     * useCredits: refuse without touching storage when nothing is cached or
     * the cached balance is too small; otherwise debit the store and, on
     * success, re-sync the cache from it. The first postcondition is the
     * cached guard on its own; the second gives the full success condition.
     */
    method UseCredits(amount: int, nextMonth: Timestamp) returns (ok: bool)
      modifies this
      ensures (old(cached).None? || old(cached).value.available < amount) ==> !ok
      ensures ok <==> old(cached).Some? && old(cached).value.available >= amount
                      && Load(old(stored), nextMonth).available >= amount
      ensures ok ==> stored == Debit(Load(old(stored), nextMonth), amount) && cached == stored && !loading
      ensures !ok ==> unchanged(this)
      ensures old(Coherent()) ==> Coherent()
      ensures old(Coherent()) && old(cached).Some? && old(cached).value.available >= amount ==> ok
    {
      if cached.None? || cached.value.available < amount {
        return false;
      }
      ok := ApiUseCredits(amount, nextMonth);
      if ok {
        RefreshCredits(nextMonth);
      }
    }
  }
}
