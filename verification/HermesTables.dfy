// The tables of the Hermes lane, updated in place.
module HermesTables {
  import opened Wrappers
  import opened Pricing
  import opened HermesLane
  import B = Budgets
  import HermesWorkers

  // The lane row, the run and control rows, the receipts, and the budget tables beside them. Each
  // method is one transaction.
  class LaneTables {
    const budgets: B.BudgetTables
    var active: Option<RunId>
    var disabled: bool
    var runs: map<RunId, Run>
    var receipts: map<nat, Receipt>

    function State(): Lane
      reads this, budgets
    {
      Lane(active, disabled, runs, receipts, budgets.State())
    }

    constructor (budgets: B.BudgetTables)
      requires budgets.State() == B.Start()
      ensures this.budgets == budgets && State() == HermesWorkers.Init().lane && Sound(State())
    {
      this.budgets := budgets;
      active, disabled, runs, receipts := None, false, map[], map[];
      new;
      HermesWorkers.InitSafe(budgets.catalog);
    }

    method StartHermesRun(key: nat, owner: Owner, operator: bool, run: RunId, a: Admission)
      returns (r: Result<RunId, StartError>)
      requires Sound(State()) && B.Standing(budgets.State(), run).None?
      modifies this, budgets
      ensures Sound(State())
      ensures var started := StartRun(old(State()), budgets.catalog, key, owner, operator, run, a);
              && r == (if started.Ok? then Ok(started.value.1) else Err(started.error))
              && State() == if started.Ok? then started.value.0 else old(State())
    {
      hide Sound, QueueRun, B.Standing;
      StartSound(State(), budgets.catalog, key, owner, operator, run, a);
      QueueSound(State(), budgets.catalog, run, a);
      if !operator {
        return Err(Denied);
      }
      if key in receipts {
        return if receipts[key].owner == owner then Ok(receipts[key].run) else Err(Conflicting);
      }
      var queued := QueueHermesRun(run, a);
      if !queued {
        return Err(Denied);
      }
      receipts := receipts[key := Receipt(owner, run)];
      return Ok(run);
    }

    method QueueHermesRun(run: RunId, a: Admission) returns (queued: bool)
      requires Sound(State()) && B.Standing(budgets.State(), run).None?
      modifies this, budgets
      ensures Sound(State())
      ensures var m := QueueRun(old(State()), budgets.catalog, run, a);
              queued == m.Some? && State() == if m.Some? then m.value else old(State())
    {
      hide Sound, B.Standing, B.Reserve;
      QueueSound(State(), budgets.catalog, run, a);
      BooksBalanced(State());
      if || !a.enabled || disabled || (exists r | r in runs :: runs[r].disabled) || active.Some?
         || (exists r | r in runs :: Active(runs[r])) || !a.ready || a.profile !in budgets.catalog || run in runs {
        return false;
      }
      var model := budgets.catalog[a.profile];
      var protected := Protected(State());
      var error := budgets.ReserveBudget(a.now, protected,
                                         B.Request(run, a.profile, model.maxTokens.input, model.maxTokens.output,
                                                   Some(a.lease)));
      if error.Some? {
        return false;
      }
      runs := runs[run := Run(model, Queued, None, false, false, false, false, NoCapability, Tokens(0, 0), 0)];
      active := Some(run);
      return true;
    }

    method AccountRun(run: RunId, billable: bool) returns (reservation: Option<B.Reservation>)
      requires B.Balanced(budgets.State())
      modifies budgets
      ensures budgets.State() == Account(old(budgets.State()), run, billable)
      ensures reservation == B.Standing(budgets.State(), run)
    {
      hide B.Balanced, B.Charge, B.Release, B.Standing, B.Settle, B.Reserve, B.ExpireMonths;
      if billable {
        budgets.ChargeReservedBudget(run);
      } else {
        budgets.ReleaseBudget(run);
      }
      reservation := B.Standing(budgets.State(), run);
    }

    method EndRun(run: RunId, category: Category, billable: bool, accounted: bool)
      requires run in runs && B.Balanced(budgets.State())
      modifies this, budgets
      ensures State() == Terminal(old(State()), run, category, billable, accounted)
    {
      hide B.Balanced, B.Standing, Account, B.Find;
      var r := runs[run];
      if accounted {
        var reservation := AccountRun(run, billable);
        if reservation.Some? && reservation.value.status.Settled? {
          r := r.(used := reservation.value.status.used, cost := reservation.value.status.actual);
        }
      } else {
        disabled := true;
        r := r.(disabled := true);
      }
      runs := runs[run := r.(status := if category == CancelCategory then Cancelled else Failed,
                             category := Some(category),
                             started := true, finished := true)];
      if active == Some(run) {
        active := None;
      }
    }

    method FinishRun(run: RunId, category: Category, billable: bool, cleanup: bool, revoked: bool, accounted: bool)
      requires Sound(State())
      modifies this, budgets
      ensures Sound(State())
      ensures State() == Finish(old(State()), run, category, billable, cleanup, revoked, accounted)
    {
      hide Sound, Terminal;
      FinishSound(State(), run, category, billable, cleanup, revoked, accounted);
      BooksBalanced(State());
      if run !in runs || !Active(runs[run]) {
        return;
      }
      var charge, clean := billable, cleanup;
      if runs[run].status == Running && !charge {
        charge := true;
        clean := false;
      }
      var r := Revoke(runs[run], revoked);
      if !revoked {
        clean := false;
      }
      if !clean {
        disabled := true;
        r := r.(disabled := true);
      }
      runs := runs[run := r];
      EndRun(run, if clean && r.cancelRequested then CancelCategory else category, charge, accounted);
    }

    method CancelHermesRun(run: RunId, revoked: bool, accounted: bool)
      requires Sound(State())
      modifies this, budgets
      ensures Sound(State())
      ensures State() == CancelRun(old(State()), run, revoked, accounted)
    {
      hide Sound, Terminal;
      CancelSound(State(), run, revoked, accounted);
      BooksBalanced(State());
      if run !in runs || !Active(runs[run]) || runs[run].cancelRequested {
        return;
      }
      var r := Revoke(runs[run], revoked).(cancelRequested := true);
      if !revoked {
        disabled := true;
        r := r.(disabled := true);
      }
      runs := runs[run := r];
      if r.status == Queued {
        EndRun(run, CancelCategory, false, accounted);
      }
    }

    method Claim(run: RunId, refusal: Option<Category>) returns (claim: Claim)
      requires Sound(State())
      modifies this
      ensures Sound(State())
      ensures (State(), claim) == ClaimRun(old(State()), run, refusal)
    {
      hide Sound;
      ClaimSound(State(), run, refusal);
      if run !in runs || !Active(runs[run]) {
        return Ignored;
      }
      if runs[run].status == Running {
        return Redelivered;
      }
      if active != Some(run) || disabled || runs[run].disabled {
        return Refused(Dependency);
      }
      if runs[run].cancelRequested {
        return Refused(CancelCategory);
      }
      if refusal.Some? {
        return Refused(refusal.value);
      }
      runs := runs[run := runs[run].(capability := Live, status := Running, started := true)];
      return Granted;
    }

    method Complete(run: RunId, usage: Usage, refusal: Option<Category>, revoked: bool) returns (done: Completion)
      requires Sound(State()) && run in runs
      modifies this, budgets
      ensures Sound(State())
      ensures (State(), done) == CompleteRun(old(State()), run, usage, refusal, revoked)
    {
      hide Sound, Cost, B.Settle;
      CompleteSound(State(), run, usage, refusal, revoked);
      BooksBalanced(State());
      var r := runs[run];
      if r.status != Running {
        return Rejected(InvalidOutput, false);
      }
      if disabled || active != Some(run) {
        return Rejected(Dependency, false);
      }
      if r.cancelRequested {
        return Rejected(CancelCategory, false);
      }
      if r.capability != Live {
        return Rejected(InvalidOutput, false);
      }
      if refusal.Some? {
        return Rejected(refusal.value, false);
      }
      if !B.Priced(r.model) || usage.cost != Cost(B.RatesOf(r.model), usage.tokens) {
        return Rejected(InvalidOutput, false);
      }
      if !revoked {
        return Rejected(Dependency, true);
      }
      var error := budgets.SettleBudget(run, usage.tokens.input, usage.tokens.output);
      if error.Some? {
        return Rejected(Dependency, false);
      }
      runs := runs[run := r.(status := Succeeded, finished := true, capability := Revoked, used := usage.tokens,
                             cost := usage.cost)];
      active := None;
      return Done;
    }
  }
}
