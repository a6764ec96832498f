/**
 * The home page's "Remove Background" action: check the cached balance,
 * spend exactly one credit, and only then run the removal. A failed removal
 * does not give the credit back.
 */
module HomePage {
  import opened Wrappers
  import opened Credits
  import opened BackgroundRemoval

  /** How far a press of the button got. */
  datatype Gate =
    | OutOfCredits   // the cached balance was below one; nothing was attempted
    | DebitRefused   // the ledger refused the one-credit debit; removal was not run
    | Processed      // the credit was spent and the removal ran once

  /** Credits spent per removal. */
  const RemovalCost: int := 1

  /**
   * HomeContent.handleRemoveBackground. `nextMonth` is the clock reading the
   * ledger uses if storage is empty, `outcome` what the engine returns.
   * The page reads the cached balance, so it runs only once the provider has
   * loaded one.
   */
  method HandleRemoveBackground(ledger: CreditsProvider, hook: BackgroundRemovalHook,
                                nextMonth: Timestamp, outcome: RemovalOutcome)
    returns (gate: Gate)
    requires ledger.cached.Some?
    requires hook.Valid()
    modifies ledger, hook
    ensures hook.Valid()
    ensures gate == OutOfCredits <==> old(ledger.cached.value.available) < 1
    ensures gate == DebitRefused <==>
              old(ledger.cached.value.available) >= 1 && Load(old(ledger.stored), nextMonth).available < 1
    ensures gate != Processed ==> unchanged(ledger) && unchanged(hook)
    ensures gate == Processed ==>
              ledger.stored == Debit(Load(old(ledger.stored), nextMonth), 1)
              && ledger.cached == ledger.stored && !ledger.loading
    ensures gate == Processed ==>
              ledger.stored.Some?
              && ledger.stored.value.available == Load(old(ledger.stored), nextMonth).available - 1
              && ledger.stored.value.used == Load(old(ledger.stored), nextMonth).used + 1
    ensures gate == Processed ==> hook.Snapshot() == AfterRemoval(old(hook.Snapshot()), outcome)
    ensures old(ledger.Coherent()) ==> gate != DebitRefused && ledger.Coherent()
  {
    if ledger.cached.value.available < 1 {
      return OutOfCredits;
    }
    var success := ledger.UseCredits(RemovalCost, nextMonth);
    if !success {
      return DebitRefused;
    }
    hook.HandleRemoveBackground(outcome);
    gate := Processed;
  }
}
