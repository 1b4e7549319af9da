// What becomes of a run that nobody disturbs: from an open and idle lane, through one worker, to an end
// that leaves the lane open and idle again.
module HermesOutcomes {
  import opened Wrappers
  import opened Pricing
  import opened HermesLane
  import opened HermesWorkers
  import B = Budgets

  predicate Good(w: World) {
    Safe(w) && Exclusive(w)
  }

  // The lane is open, and has no run.
  predicate Idle(w: World) {
    Good(w) && !w.lane.disabled && w.lane.active.None?
  }

  // A request for a new run that can be reserved.
  predicate Admissible(w: World, catalog: B.Catalog, key: nat, run: RunId, a: Admission) {
    && key !in w.lane.receipts && B.Standing(w.lane.books, run).None? && a.enabled && a.ready && a.profile in catalog
    && B.Priced(catalog[a.profile])
    && var max := catalog[a.profile].maxTokens;
       B.Reserve(w.lane.books, catalog, a.now, Protected(w.lane),
                 B.Request(run, a.profile, max.input, max.output, Some(a.lease))).Ok?
  }

  // The lane is open with this run of this model.
  predicate Holding(w: World, run: RunId, model: B.Model, status: RunStatus) {
    && Good(w) && !w.lane.disabled && w.lane.active == Some(run) && run in w.lane.runs && B.Priced(model)
    && w.lane.runs[run].status == status && w.lane.runs[run].model == model
  }

  lemma Stepped(w: World, catalog: B.Catalog, s: Step)
    requires Good(w)
    ensures Good(Next(w, catalog, s))
  {
    hide Safe, Exclusive, Next;
    NextSafe(w, catalog, s);
    NextExclusive(w, catalog, s);
  }

  lemma Started(w: World, catalog: B.Catalog, key: nat, owner: Owner, run: RunId, a: Admission)
    requires Idle(w) && Admissible(w, catalog, key, run, a)
    ensures var m := Next(w, catalog, Start(key, owner, true, run, a));
            && Holding(m, run, catalog[a.profile], Queued) && !m.lane.runs[run].cancelRequested
            && m.workers == w.workers && m.executions == w.executions
  {
    hide Sound, WorkersOk, Exclusive, QueueRun, B.Reserve, B.Standing;
    Stepped(w, catalog, Start(key, owner, true, run, a));
    NewRun(w.lane, run);
    AdmitsExactly(w.lane, catalog, run, a);
    StartsExactly(w.lane, catalog, key, owner, true, run, a);
  }

  lemma NewRun(l: Lane, run: RunId)
    requires Sound(l) && B.Standing(l.books, run).None?
    ensures run !in l.runs
  {
    RunsStand(l);
  }

  lemma Taken(w: World, catalog: B.Catalog, worker: nat, run: RunId, model: B.Model)
    requires Holding(w, run, model, Queued) && !w.lane.runs[run].cancelRequested && worker !in w.workers
    ensures var m := Next(Next(w, catalog, Deliver(worker, run, None, false)), catalog, Call(worker));
            && Holding(m, run, model, Running) && !m.lane.runs[run].cancelRequested
            && m.lane.runs[run].capability == Live
            && m.workers == w.workers[worker := Executing(run)] && m.executions == w.executions + [run]
  {
    hide Sound, WorkersOk, Exclusive, B.Standing;
    ClaimsExactly(w.lane, run, None);
    Stepped(w, catalog, Deliver(worker, run, None, false));
    Stepped(Next(w, catalog, Deliver(worker, run, None, false)), catalog, Call(worker));
  }

  // The client takes exactly usage within the ceilings it sent, and within their cost.
  lemma TakesExactly(w: World, catalog: B.Catalog, worker: nat, run: RunId, model: B.Model, result: Option<Usage>,
                     category: Category, cleanup: bool)
    requires Holding(w, run, model, Running) && worker in w.workers && w.workers[worker] == Executing(run)
    ensures var m := Next(w, catalog, Return(worker, result, category, cleanup));
            && m.lane == w.lane && m.executions == w.executions && Good(m)
            && m.workers == w.workers[worker :=
                 if && result.Some? && Covers(model.maxTokens, result.value.tokens)
                    && result.value.cost <= Cost(B.RatesOf(model), model.maxTokens)
                 then Returned(run, result.value) else Failing(run, category, true, cleanup)]
  {
    hide Exclusive, WorkersOk, B.Balanced, B.Standing, Cost;
    RunAt(w.lane, run);
    RunsStand(w.lane);
    B.StandingSound(w.lane.books, run);
    Stepped(w, catalog, Return(worker, result, category, cleanup));
  }

  // A run that has been started, claimed and executed.
  function Executed(w: World, catalog: B.Catalog, key: nat, owner: Owner, run: RunId, a: Admission,
                    worker: nat): World {
    var started := Next(w, catalog, Start(key, owner, true, run, a));
    Next(Next(started, catalog, Deliver(worker, run, None, false)), catalog, Call(worker))
  }

  lemma ExecutedHolds(w: World, catalog: B.Catalog, key: nat, owner: Owner, run: RunId, a: Admission, worker: nat)
    requires Idle(w) && Admissible(w, catalog, key, run, a) && worker !in w.workers
    ensures var m := Executed(w, catalog, key, owner, run, a, worker);
            && Holding(m, run, catalog[a.profile], Running) && !m.lane.runs[run].cancelRequested
            && m.lane.runs[run].capability == Live
            && m.workers == w.workers[worker := Executing(run)] && m.executions == w.executions + [run]
  {
    hide Idle, Holding, Next;
    Started(w, catalog, key, owner, run, a);
    Taken(Next(w, catalog, Start(key, owner, true, run, a)), catalog, worker, run, catalog[a.profile]);
  }

  // The run has ended like this, charged like this, and the lane is open and idle.
  predicate Ended(w: World, run: RunId, status: RunStatus, category: Option<Category>, charged: B.Status) {
    && Idle(w) && run in w.lane.runs && w.lane.runs[run].status == status && w.lane.runs[run].category == category
    && B.Standing(w.lane.books, run).Some? && B.Standing(w.lane.books, run).value.status == charged
  }

  // What the whole reservation of a run of this model costs.
  function Whole(model: B.Model): B.Status
    requires B.Priced(model)
  {
    B.Settled(model.maxTokens, Cost(B.RatesOf(model), model.maxTokens))
  }

  lemma Worked(w: World, run: RunId, model: B.Model, status: RunStatus)
    requires Holding(w, run, model, status) && (status == Queued || status == Running)
    ensures B.Standing(w.lane.books, run).Some? && B.Priced(model)
    ensures var r := B.Standing(w.lane.books, run).value;
            r.estimate == model.maxTokens && r.cost == Cost(B.RatesOf(model), model.maxTokens)
  {
    hide Exclusive, WorkersOk, B.Balanced, B.Standing, Cost;
    RunAt(w.lane, run);
    RunsStand(w.lane);
    B.StandingSound(w.lane.books, run);
  }

  // A worker that has cleaned up, or has not claimed the run, ends it without closing the lane.
  lemma Concluded(w: World, catalog: B.Catalog, worker: nat, run: RunId, model: B.Model, status: RunStatus, p: Phase)
    requires Holding(w, run, model, status) && (status == Queued || status == Running)
    requires worker in w.workers && w.workers[worker] == p && p.Failing? && p.run == run && p.cleanup
    requires status == Running <==> p.billable
    ensures var m := Next(w, catalog, Conclude(worker, true, true));
            var category := if w.lane.runs[run].cancelRequested then CancelCategory else p.category;
            && Ended(m, run, if category == CancelCategory then Cancelled else Failed, Some(category),
                     if p.billable then Whole(model) else B.Released)
            && m.workers == w.workers - {worker} && m.executions == w.executions
  {
    hide Sound, Exclusive, WorkersOk, B.Standing, Finish, Cost;
    Worked(w, run, model, status);
    FinishFrees(w.lane, run, p.category, p.billable, p.cleanup, true, true);
    Stepped(w, catalog, Conclude(worker, true, true));
  }

  // A run that is executed with usage within its ceilings, reported at its price, succeeds, and is
  // charged exactly that.
  lemma Succeeds(w: World, catalog: B.Catalog, key: nat, owner: Owner, run: RunId, a: Admission, worker: nat,
                 usage: Usage, category: Category, cleanup: bool)
    requires Idle(w) && Admissible(w, catalog, key, run, a) && worker !in w.workers
    requires var model := catalog[a.profile];
             Covers(model.maxTokens, usage.tokens) && usage.cost == Cost(B.RatesOf(model), usage.tokens)
    ensures var executed := Executed(w, catalog, key, owner, run, a, worker);
            var returned := Next(executed, catalog, Return(worker, Some(usage), category, cleanup));
            var m := Next(returned, catalog, Complete(worker, None, true, cleanup, false));
            && Ended(m, run, Succeeded, None, B.Settled(usage.tokens, usage.cost))
            && m.lane.runs[run].used == usage.tokens && m.lane.runs[run].cost == usage.cost
            && m.workers == w.workers && m.executions == w.executions + [run]
  {
    hide Idle, Executed, B.Standing, B.Reserve, Cost, Exclusive, WorkersOk, Sound, CompleteRun, Accepts;
    var model := catalog[a.profile];
    var executed := Executed(w, catalog, key, owner, run, a, worker);
    var returned := Next(executed, catalog, Return(worker, Some(usage), category, cleanup));
    var m := Next(returned, catalog, Complete(worker, None, true, cleanup, false));
    ExecutedHolds(w, catalog, key, owner, run, a, worker);
    CostMonotone(B.RatesOf(model), model.maxTokens, usage.tokens);
    TakesExactly(executed, catalog, worker, run, model, Some(usage), category, cleanup);
    CompletesExactly(returned.lane, run, usage, None, true);
    Stepped(returned, catalog, Complete(worker, None, true, cleanup, false));
    CompletedRun(returned.lane, run, usage);
    assert w.workers[worker := Returned(run, usage)] - {worker} == w.workers;
    OpenIdle(m);
  }

  lemma OpenIdle(w: World)
    requires Good(w) && !w.lane.disabled && w.lane.active.None?
    ensures Idle(w)
  {
  }

  lemma CompletedRun(l: Lane, run: RunId, usage: Usage)
    requires Sound(l) && run in l.runs && l.runs[run].status == Running
             && CompleteRun(l, run, usage, None, true).1 == Done
    ensures var m := CompleteRun(l, run, usage, None, true).0;
            && m.active == None && m.disabled == l.disabled && run in m.runs && m.runs[run].status == Succeeded
            && m.runs[run].category == None && m.runs[run].used == usage.tokens && m.runs[run].cost == usage.cost
            && B.Standing(m.books, run).Some?
            && B.Standing(m.books, run).value.status == B.Settled(usage.tokens, usage.cost)
  {
    hide B.Balanced, B.Standing, B.Settle, Cost;
    RunAt(l, run);
    RunsStand(l);
    B.Touched(l.books, map[], B.SettleStep(run, usage.tokens.input, usage.tokens.output), run);
  }

  // One that is executed without an acceptable result, and cleaned up after, fails with the reported
  // category and is charged in whole.
  lemma Fails(w: World, catalog: B.Catalog, key: nat, owner: Owner, run: RunId, a: Admission, worker: nat,
              result: Option<Usage>, category: Category)
    requires Idle(w) && Admissible(w, catalog, key, run, a) && worker !in w.workers && category != CancelCategory
    requires var model := catalog[a.profile];
             result.Some? ==> || !Covers(model.maxTokens, result.value.tokens)
                              || result.value.cost > Cost(B.RatesOf(model), model.maxTokens)
    ensures var executed := Executed(w, catalog, key, owner, run, a, worker);
            var failed := Next(executed, catalog, Return(worker, result, category, true));
            var m := Next(failed, catalog, Conclude(worker, true, true));
            && Ended(m, run, Failed, Some(category), Whole(catalog[a.profile]))
            && m.workers == w.workers && m.executions == w.executions + [run]
  {
    hide Idle, Executed, B.Standing, B.Reserve, Cost, Exclusive, WorkersOk, Sound, Next, Whole, Ended;
    var model := catalog[a.profile];
    var executed := Executed(w, catalog, key, owner, run, a, worker);
    ExecutedHolds(w, catalog, key, owner, run, a, worker);
    TakesExactly(executed, catalog, worker, run, model, result, category, true);
    var failing := Failing(run, category, true, true);
    Concluded(Next(executed, catalog, Return(worker, result, category, true)), catalog, worker, run, model, Running,
              failing);
    assert w.workers[worker := failing] - {worker} == w.workers;
  }

  // So does one whose completion is refused, with the category of the refusal.
  lemma FailsLate(w: World, catalog: B.Catalog, key: nat, owner: Owner, run: RunId, a: Admission, worker: nat,
                  usage: Usage, category: Category, cleanup: bool, refusal: Category, revoked: bool)
    requires Idle(w) && Admissible(w, catalog, key, run, a) && worker !in w.workers && refusal != CancelCategory
    requires var model := catalog[a.profile];
             Covers(model.maxTokens, usage.tokens) && usage.cost <= Cost(B.RatesOf(model), model.maxTokens)
    ensures var executed := Executed(w, catalog, key, owner, run, a, worker);
            var returned := Next(executed, catalog, Return(worker, Some(usage), category, cleanup));
            var refused := Next(returned, catalog, Complete(worker, Some(refusal), revoked, true, false));
            var m := Next(refused, catalog, Conclude(worker, true, true));
            && Ended(m, run, Failed, Some(refusal), Whole(catalog[a.profile]))
            && m.workers == w.workers && m.executions == w.executions + [run]
  {
    hide Idle, Executed, B.Standing, B.Reserve, B.Settle, Cost, Exclusive, WorkersOk, Sound, Whole, Ended, Accepts,
         Finish;
    var model := catalog[a.profile];
    var executed := Executed(w, catalog, key, owner, run, a, worker);
    ExecutedHolds(w, catalog, key, owner, run, a, worker);
    TakesExactly(executed, catalog, worker, run, model, Some(usage), category, cleanup);
    var returned := Next(executed, catalog, Return(worker, Some(usage), category, cleanup));
    var step := Complete(worker, Some(refusal), revoked, true, false);
    Stepped(returned, catalog, step);
    var failing := Failing(run, refusal, true, true);
    var refused := Next(returned, catalog, step);
    assert refused.lane == returned.lane && refused.workers == returned.workers[worker := failing];
    Concluded(refused, catalog, worker, run, model, Running, failing);
    assert w.workers[worker := Returned(run, usage)][worker := failing] - {worker} == w.workers;
  }

  // One that is refused before it is claimed, or could not be dispatched, is free of charge.
  lemma Refuses(w: World, catalog: B.Catalog, key: nat, owner: Owner, run: RunId, a: Admission, worker: nat,
                refusal: Category)
    requires Idle(w) && Admissible(w, catalog, key, run, a) && worker !in w.workers && refusal != CancelCategory
    ensures var started := Next(w, catalog, Start(key, owner, true, run, a));
            var refused := Next(started, catalog, Deliver(worker, run, Some(refusal), false));
            var m := Next(refused, catalog, Conclude(worker, true, true));
            && Ended(m, run, Failed, Some(refusal), B.Released) && m.workers == w.workers
            && m.executions == w.executions
    ensures var started := Next(w, catalog, Start(key, owner, true, run, a));
            var m := Next(started, catalog, DispatchFailed(run, true, true));
            && Ended(m, run, Failed, Some(Dependency), B.Released)
            && m.workers == w.workers && m.executions == w.executions
  {
    hide Idle, B.Standing, B.Reserve, Cost, Exclusive, WorkersOk, Sound, StartRun, Finish, Ended, Whole;
    var model := catalog[a.profile];
    var started := Next(w, catalog, Start(key, owner, true, run, a));
    Started(w, catalog, key, owner, run, a);
    var deliver := Deliver(worker, run, Some(refusal), false);
    var refused := Next(started, catalog, deliver);
    QueuedClaim(started, run, model, Some(refusal));
    Stepped(started, catalog, deliver);
    var failing := Failing(run, refusal, false, true);
    Concluded(refused, catalog, worker, run, model, Queued, failing);
    assert w.workers[worker := failing] - {worker} == w.workers;
    DispatchEnds(started, catalog, run, model);
  }

  lemma QueuedClaim(w: World, run: RunId, model: B.Model, refusal: Option<Category>)
    requires Holding(w, run, model, Queued) && !w.lane.runs[run].cancelRequested
    ensures ClaimRun(w.lane, run, refusal).1 == if refusal.Some? then Refused(refusal.value) else Granted
    ensures refusal.Some? ==> ClaimRun(w.lane, run, refusal).0 == w.lane
  {
    hide Sound, B.Standing, B.Balanced;
    RunAt(w.lane, run);
  }

  lemma DispatchEnds(w: World, catalog: B.Catalog, run: RunId, model: B.Model)
    requires Holding(w, run, model, Queued) && !w.lane.runs[run].cancelRequested
    ensures var m := Next(w, catalog, DispatchFailed(run, true, true));
            && Ended(m, run, Failed, Some(Dependency), B.Released)
            && m.workers == w.workers && m.executions == w.executions
  {
    hide Sound, Exclusive, WorkersOk, B.Standing, Finish, Cost;
    FinishFrees(w.lane, run, Dependency, false, true, true, true);
    Stepped(w, catalog, DispatchFailed(run, true, true));
  }

  // One that is cancelled before it is claimed ends at once, free of charge.
  lemma CancelsQueued(w: World, catalog: B.Catalog, key: nat, owner: Owner, run: RunId, a: Admission)
    requires Idle(w) && Admissible(w, catalog, key, run, a)
    ensures var started := Next(w, catalog, Start(key, owner, true, run, a));
            var m := Next(started, catalog, Cancel(run, true, true));
            && Ended(m, run, Cancelled, Some(CancelCategory), B.Released)
            && m.workers == w.workers && m.executions == w.executions
  {
    hide Idle, B.Standing, B.Reserve, Cost, Exclusive, WorkersOk, Sound, StartRun, CancelRun, Whole;
    var started := Next(w, catalog, Start(key, owner, true, run, a));
    Started(w, catalog, key, owner, run, a);
    CancelEffects(started.lane, run, true, true);
    Stepped(started, catalog, Cancel(run, true, true));
    var m := Next(started, catalog, Cancel(run, true, true));
    CancelledCategory(m.lane, run);
    OpenIdle(m);
  }

  lemma CancelledCategory(l: Lane, run: RunId)
    requires Sound(l) && run in l.runs && l.runs[run].status == Cancelled
    ensures l.runs[run].category == Some(CancelCategory)
  {
    hide B.Balanced, B.Standing;
    RunAt(l, run);
  }

  // One that is cancelled while it is executed ends as cancelled, whatever the adapter returns, and is
  // charged in whole.
  lemma CancelsExecuted(w: World, catalog: B.Catalog, key: nat, owner: Owner, run: RunId, a: Admission, worker: nat,
                        category: Category)
    requires Idle(w) && Admissible(w, catalog, key, run, a) && worker !in w.workers
    ensures var executed := Executed(w, catalog, key, owner, run, a, worker);
            var cancelled := Next(executed, catalog, Cancel(run, true, true));
            var failed := Next(cancelled, catalog, Return(worker, None, category, true));
            var m := Next(failed, catalog, Conclude(worker, true, true));
            && Ended(m, run, Cancelled, Some(CancelCategory), Whole(catalog[a.profile]))
            && m.workers == w.workers && m.executions == w.executions + [run]
  {
    hide Idle, Executed, B.Standing, B.Reserve, Cost, Exclusive, WorkersOk, Sound, Whole, Ended, CancelRun, Finish;
    var model := catalog[a.profile];
    var executed := Executed(w, catalog, key, owner, run, a, worker);
    ExecutedHolds(w, catalog, key, owner, run, a, worker);
    CancelEffects(executed.lane, run, true, true);
    var cancelled := Next(executed, catalog, Cancel(run, true, true));
    Stepped(executed, catalog, Cancel(run, true, true));
    ModelKept(executed, catalog, run);
    TakesExactly(cancelled, catalog, worker, run, model, None, category, true);
    var failing := Failing(run, category, true, true);
    Concluded(Next(cancelled, catalog, Return(worker, None, category, true)), catalog, worker, run, model, Running,
              failing);
    assert w.workers[worker := Executing(run)][worker := failing] - {worker} == w.workers;
  }

  lemma ModelKept(w: World, catalog: B.Catalog, run: RunId)
    requires Good(w) && run in w.lane.runs
    ensures var m := Next(w, catalog, Cancel(run, true, true));
            run in m.lane.runs && m.lane.runs[run].model == w.lane.runs[run].model
  {
    hide Sound, Exclusive, WorkersOk, CancelRun;
    CancelSound(w.lane, run, true, true);
  }
}
