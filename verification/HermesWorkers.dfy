// Workers of the Hermes lane between their transactions, and every run of the system.
module HermesWorkers {
  import opened Wrappers
  import opened Pricing
  import opened HermesLane
  import B = Budgets

  // Where a worker is between its transactions.
  datatype Phase =
    | Claimed(run: RunId)
    | Executing(run: RunId)
    | Returned(run: RunId, usage: Usage)
    | Failing(run: RunId, category: Category, billable: bool, cleanup: bool)

  // `executions` lists the runs that the adapter was asked to execute.
  datatype World = World(lane: Lane, workers: map<nat, Phase>, executions: seq<RunId>)

  // Transactions and the events between them, in any order; a message can be delivered again at any
  // time. The booleans are outcomes of calls that can fail; `lost` is a commit that took effect though
  // the worker sees it fail.
  datatype Step =
    | Start(key: nat, owner: Owner, operator: bool, run: RunId, admission: Admission)
    | DispatchFailed(run: RunId, revoked: bool, accounted: bool)
    | Deliver(worker: nat, run: RunId, refusal: Option<Category>, lost: bool)
    | Call(worker: nat)
    | Return(worker: nat, result: Option<Usage>, category: Category, cleanup: bool)
    | Complete(worker: nat, refusal: Option<Category>, revoked: bool, cleanup: bool, lost: bool)
    | Conclude(worker: nat, revoked: bool, accounted: bool)
    | Cancel(run: RunId, revoked: bool, accounted: bool)
    | Book(step: B.Step)
    | Crash(worker: nat)

  // The client's check of the reported usage against the ceilings it sent.
  predicate Accepts(l: Lane, run: RunId, usage: Usage) {
    && run in l.runs && B.Standing(l.books, run).Some?
    && Covers(l.runs[run].model.maxTokens, usage.tokens)
    && usage.cost <= B.Standing(l.books, run).value.cost && usage.cost <= l.runs[run].model.perRunLimit
  }

  predicate BookAllowed(l: Lane, step: B.Step) {
    && (B.Subject(step).Some? ==> B.Subject(step).value !in l.runs)
    && (step.ReserveStep? ==> step.protected == Protected(l))
    && (step.ExpireStep? ==> step.protected == Protected(l))
  }

  function NextDeliver(w: World, worker: nat, run: RunId, refusal: Option<Category>, lost: bool): World {
    if worker in w.workers then w
    else
      var (l, claim) := ClaimRun(w.lane, run, refusal);
      match claim
      case Ignored => w
      case Redelivered => w.(workers := w.workers[worker := Failing(run, Dependency, true, false)])
      case Refused(category) => w.(workers := w.workers[worker := Failing(run, category, false, true)])
      case Granted =>
        w.(lane := l,
           workers := w.workers[worker := if lost then Failing(run, Dependency, false, true) else Claimed(run)])
  }

  function NextComplete(w: World, worker: nat, refusal: Option<Category>, revoked: bool, cleanup: bool,
                        lost: bool): World {
    if worker in w.workers && w.workers[worker].Returned? && w.workers[worker].run in w.lane.runs then
      var p := w.workers[worker];
      var (l, done) := CompleteRun(w.lane, p.run, p.usage, refusal, revoked);
      if done == Done then
        w.(lane := l,
           workers := if lost then w.workers[worker := Failing(p.run, Dependency, true, cleanup)]
                      else w.workers - {worker})
      else w.(workers := w.workers[worker := Failing(p.run, done.category, true, cleanup && !done.quarantine)])
    else w
  }

  function Next(w: World, catalog: B.Catalog, s: Step): World {
    match s
    case Start(key, owner, operator, run, a) =>
      // A run's id is drawn fresh.
      if B.Standing(w.lane.books, run).Some? then w
      else
        var r := StartRun(w.lane, catalog, key, owner, operator, run, a);
        if r.Ok? then w.(lane := r.value.0) else w
    case DispatchFailed(run, revoked, accounted) =>
      w.(lane := Finish(w.lane, run, Dependency, false, true, revoked, accounted))
    case Deliver(worker, run, refusal, lost) => NextDeliver(w, worker, run, refusal, lost)
    case Call(worker) =>
      if worker in w.workers && w.workers[worker].Claimed? then
        var run := w.workers[worker].run;
        w.(executions := w.executions + [run], workers := w.workers[worker := Executing(run)])
      else w
    case Return(worker, result, category, cleanup) =>
      if worker in w.workers && w.workers[worker].Executing? then
        var run := w.workers[worker].run;
        w.(workers := w.workers[worker := if result.Some? && Accepts(w.lane, run, result.value)
                                          then Returned(run, result.value)
                                          else Failing(run, category, true, cleanup)])
      else w
    case Complete(worker, refusal, revoked, cleanup, lost) => NextComplete(w, worker, refusal, revoked, cleanup, lost)
    case Conclude(worker, revoked, accounted) =>
      if worker in w.workers && w.workers[worker].Failing? then
        var p := w.workers[worker];
        w.(lane := Finish(w.lane, p.run, p.category, p.billable, p.cleanup, revoked, accounted),
           workers := w.workers - {worker})
      else w
    case Cancel(run, revoked, accounted) => w.(lane := CancelRun(w.lane, run, revoked, accounted))
    case Book(step) =>
      if BookAllowed(w.lane, step) then w.(lane := w.lane.(books := B.Apply(w.lane.books, catalog, step))) else w
    case Crash(worker) => w.(workers := w.workers - {worker})
  }

  function Init(): World {
    World(Lane(None, false, map[], map[], B.Start()), map[], [])
  }

  function Runs(w: World, catalog: B.Catalog, steps: seq<Step>): World {
    if steps == [] then w else Next(Runs(w, catalog, steps[..|steps| - 1]), catalog, steps[|steps| - 1])
  }

  predicate Issued(l: Lane, run: RunId) {
    run in l.runs && l.runs[run].capability != NoCapability
  }

  // Workers only execute claimed runs; one that is still to call the adapter is the only one for its run.
  predicate WorkersOk(l: Lane, workers: map<nat, Phase>, executions: seq<RunId>) {
    && (forall k | k in workers :: !workers[k].Failing? ==> Issued(l, workers[k].run))
    && (forall j, k | j in workers && k in workers && j != k && workers[j].Claimed? && workers[k].Claimed? ::
          workers[j].run != workers[k].run)
    && (forall k | k in workers && workers[k].Claimed? :: workers[k].run !in executions)
    && (forall r | r in executions :: Issued(l, r))
    && (forall i, j | 0 <= i < j < |executions| :: executions[i] != executions[j])
  }

  predicate Safe(w: World) {
    Sound(w.lane) && WorkersOk(w.lane, w.workers, w.executions)
  }

  lemma IssuedGrows(l: Lane, m: Lane, workers: map<nat, Phase>, executions: seq<RunId>)
    requires WorkersOk(l, workers, executions) && Grows(l, m)
    ensures WorkersOk(m, workers, executions)
  {
    hide B.Standing, Active;
    forall r | Issued(l, r) ensures Issued(m, r) {
    }
  }

  lemma DeliverSafe(w: World, worker: nat, run: RunId, refusal: Option<Category>, lost: bool)
    requires Safe(w)
    ensures Safe(NextDeliver(w, worker, run, refusal, lost))
            && Grows(w.lane, NextDeliver(w, worker, run, refusal, lost).lane)
  {
    hide Sound, Grows, RunOk;
    ClaimSound(w.lane, run, refusal);
    GrowsSelf(w.lane);
    var (l, claim) := ClaimRun(w.lane, run, refusal);
    if worker !in w.workers && claim == Granted {
      NotIssued(w.lane, run);
      IssuedGrows(w.lane, l, w.workers, w.executions);
    }
  }

  lemma NotIssued(l: Lane, run: RunId)
    requires Sound(l) && run in l.runs && l.runs[run].status == Queued
    ensures !Issued(l, run)
  {
    hide B.Balanced, B.Standing;
    RunAt(l, run);
  }

  lemma WorkersLess(l: Lane, workers: map<nat, Phase>, executions: seq<RunId>, k: nat)
    requires WorkersOk(l, workers, executions)
    ensures WorkersOk(l, workers - {k}, executions)
  {
    hide Issued;
  }

  lemma WorkerMoves(l: Lane, workers: map<nat, Phase>, executions: seq<RunId>, k: nat, p: Phase)
    requires WorkersOk(l, workers, executions) && !p.Claimed? && (p.Failing? || Issued(l, p.run))
    ensures WorkersOk(l, workers[k := p], executions)
  {
    hide Issued;
  }

  lemma CallSafe(l: Lane, workers: map<nat, Phase>, executions: seq<RunId>, k: nat)
    requires WorkersOk(l, workers, executions) && k in workers && workers[k].Claimed?
    ensures WorkersOk(l, workers[k := Executing(workers[k].run)], executions + [workers[k].run])
  {
    hide Issued;
  }

  lemma NextSafe(w: World, catalog: B.Catalog, s: Step)
    requires Safe(w)
    ensures Safe(Next(w, catalog, s)) && Grows(w.lane, Next(w, catalog, s).lane)
  {
    hide Sound, Grows, WorkersOk, Finish, CancelRun, CompleteRun, StartRun, NextDeliver, Accepts, BookAllowed,
         B.Standing, B.Apply;
    GrowsSelf(w.lane);
    var l := Next(w, catalog, s).lane;
    match s {
      case Start(key, owner, operator, run, a) =>
        if B.Standing(w.lane.books, run).None? {
          StartSound(w.lane, catalog, key, owner, operator, run, a);
          IssuedGrowsIf(w.lane, l, w.workers, w.executions);
        }
      case DispatchFailed(run, revoked, accounted) =>
        FinishSound(w.lane, run, Dependency, false, true, revoked, accounted);
        IssuedGrows(w.lane, l, w.workers, w.executions);
      case Deliver(worker, run, refusal, lost) => DeliverSafe(w, worker, run, refusal, lost);
      case Call(worker) =>
        if worker in w.workers && w.workers[worker].Claimed? {
          CallSafe(w.lane, w.workers, w.executions, worker);
        }
      case Return(worker, result, category, cleanup) =>
        if worker in w.workers && w.workers[worker].Executing? {
          WorkerIssued(w.lane, w.workers, w.executions, worker);
          WorkerMoves(w.lane, w.workers, w.executions, worker, Next(w, catalog, s).workers[worker]);
        }
      case Complete(worker, refusal, revoked, cleanup, lost) =>
        if worker in w.workers && w.workers[worker].Returned? && w.workers[worker].run in w.lane.runs {
          var p := w.workers[worker];
          CompleteSound(w.lane, p.run, p.usage, refusal, revoked);
          IssuedGrowsIf(w.lane, l, w.workers, w.executions);
          WorkersLess(l, w.workers, w.executions, worker);
          if CompleteRun(w.lane, p.run, p.usage, refusal, revoked).1 != Done || lost {
            WorkerMoves(l, w.workers, w.executions, worker, Next(w, catalog, s).workers[worker]);
          }
        }
      case Conclude(worker, revoked, accounted) =>
        if worker in w.workers && w.workers[worker].Failing? {
          var p := w.workers[worker];
          FinishSound(w.lane, p.run, p.category, p.billable, p.cleanup, revoked, accounted);
          IssuedGrows(w.lane, l, w.workers, w.executions);
          WorkersLess(l, w.workers, w.executions, worker);
        }
      case Cancel(run, revoked, accounted) =>
        CancelSound(w.lane, run, revoked, accounted);
        IssuedGrows(w.lane, l, w.workers, w.executions);
      case Book(step) =>
        if BookAllowed(w.lane, step) {
          BookSafe(w.lane, catalog, step);
          IssuedGrows(w.lane, l, w.workers, w.executions);
        }
      case Crash(worker) => WorkersLess(w.lane, w.workers, w.executions, worker);
    }
  }

  lemma IssuedGrowsIf(l: Lane, m: Lane, workers: map<nat, Phase>, executions: seq<RunId>)
    requires WorkersOk(l, workers, executions)
    ensures Grows(l, m) ==> WorkersOk(m, workers, executions)
  {
    hide WorkersOk, Grows;
    if Grows(l, m) {
      IssuedGrows(l, m, workers, executions);
    }
  }

  lemma WorkerIssued(l: Lane, workers: map<nat, Phase>, executions: seq<RunId>, k: nat)
    requires WorkersOk(l, workers, executions) && k in workers && !workers[k].Failing?
    ensures Issued(l, workers[k].run)
  {
  }

  lemma BookSafe(l: Lane, catalog: B.Catalog, step: B.Step)
    requires Sound(l) && BookAllowed(l, step)
    ensures Sound(l.(books := B.Apply(l.books, catalog, step)))
            && Grows(l, l.(books := B.Apply(l.books, catalog, step)))
  {
    hide Sound, Grows, B.Apply, Protected;
    BooksSound(l, catalog, step);
  }

  // ---------------------------------------------------------------- every run of the system

  lemma InitSafe(catalog: B.Catalog)
    ensures Safe(Init())
  {
    B.AlwaysBalanced(catalog, []);
  }

  lemma {:induction false} AlwaysSafe(w: World, catalog: B.Catalog, steps: seq<Step>)
    requires Safe(w)
    ensures Safe(Runs(w, catalog, steps)) && Grows(w.lane, Runs(w, catalog, steps).lane)
  {
    hide Safe, Grows, Next;
    GrowsSelf(w.lane);
    if steps != [] {
      var before := Runs(w, catalog, steps[..|steps| - 1]);
      AlwaysSafe(w, catalog, steps[..|steps| - 1]);
      NextSafe(before, catalog, steps[|steps| - 1]);
      GrowsOn(w.lane, before.lane, Next(before, catalog, steps[|steps| - 1]).lane);
    }
  }

  // In every reachable state at most one run is queued or running, the lane names exactly it, and
  // its reservation is still reserved, at the limits of its model.
  lemma OneActiveRun(catalog: B.Catalog, steps: seq<Step>, run: RunId)
    ensures var l := Runs(Init(), catalog, steps).lane;
            && (run in l.runs && Active(l.runs[run]) <==> l.active == Some(run))
            && (l.active == Some(run) ==>
                  var standing := B.Standing(l.books, run);
                  standing.Some? && standing.value.status == B.Reserved
                    && standing.value.estimate == standing.value.model.maxTokens)
  {
    hide B.Balanced, B.Standing, Next;
    InitSafe(catalog);
    AlwaysSafe(Init(), catalog, steps);
  }

  // The adapter is asked to execute a run at most once, and a run it was asked to execute is never
  // released free of charge.
  lemma ExecutedOnce(catalog: B.Catalog, steps: seq<Step>)
    ensures var w := Runs(Init(), catalog, steps);
            && (forall i, j | 0 <= i < j < |w.executions| :: w.executions[i] != w.executions[j])
            && (forall r | r in w.executions ::
                  r in w.lane.runs && B.Standing(w.lane.books, r).Some?
                    && B.Standing(w.lane.books, r).value.status != B.Released)
  {
    hide B.Balanced, B.Standing, Next;
    InitSafe(catalog);
    AlwaysSafe(Init(), catalog, steps);
    var w := Runs(Init(), catalog, steps);
    forall r | r in w.executions
      ensures r in w.lane.runs && B.Standing(w.lane.books, r).Some?
              && B.Standing(w.lane.books, r).value.status != B.Released
    {
      assert Issued(w.lane, r);
      RunAt(w.lane, r);
    }
  }

  // Every ended run is settled or released and its capability is not live, unless the lane is
  // disabled; and it shows exactly the usage that was charged.
  lemma EndedAccounted(catalog: B.Catalog, steps: seq<Step>, run: RunId)
    ensures var l := Runs(Init(), catalog, steps).lane;
            run in l.runs && !Active(l.runs[run]) ==>
              var r, standing := l.runs[run], B.Standing(l.books, run);
              && Clean(r) && standing.Some?
              && (l.disabled || (standing.value.status != B.Reserved && r.capability != Live))
              && (standing.value.status.Settled? ==>
                    r.used == standing.value.status.used && r.cost == standing.value.status.actual)
              && (!standing.value.status.Settled? ==> r.used == Tokens(0, 0) && r.cost == 0)
  {
    hide B.Balanced, B.Standing, Next;
    InitSafe(catalog);
    AlwaysSafe(Init(), catalog, steps);
    var l := Runs(Init(), catalog, steps).lane;
    if run in l.runs {
      RunAt(l, run);
    }
  }

  // Disabling the lane is never undone and it then admits no run; an ended run stays as it ended,
  // and so does its reservation, even one whose accounting failed.
  lemma NeverUndone(catalog: B.Catalog, steps: seq<Step>, more: seq<Step>, run: RunId)
    ensures var l, m := Runs(Init(), catalog, steps).lane, Runs(Runs(Init(), catalog, steps), catalog, more).lane;
            && (l.disabled ==> m.disabled && m.runs.Keys == l.runs.Keys)
            && (run in l.runs && !Active(l.runs[run]) ==>
                  run in m.runs && m.runs[run] == l.runs[run] && B.Standing(m.books, run) == B.Standing(l.books, run))
  {
    hide Safe, Next, B.Standing;
    InitSafe(catalog);
    AlwaysSafe(Init(), catalog, steps);
    AlwaysSafe(Runs(Init(), catalog, steps), catalog, more);
  }

  // ---------------------------------------------------------------- one execution at a time

  predicate Busy(p: Phase) {
    !p.Failing?
  }

  // A failure after which the child is known to be gone, because its own worker has seen to that.
  predicate Cleaned(p: Phase) {
    p.Failing? && p.billable && p.cleanup
  }

  // One worker at most is busy with a run, and none is beside one that has cleaned up after it; and
  // what was returned, or has succeeded, was executed.
  predicate OnePerRun(w: World) {
    && (forall k | k in w.workers && (Busy(w.workers[k]) || Cleaned(w.workers[k])) :: Issued(w.lane, w.workers[k].run))
    && (forall j, k | && j in w.workers && k in w.workers && j != k && Busy(w.workers[j])
                      && w.workers[j].run == w.workers[k].run :: !Busy(w.workers[k]) && !Cleaned(w.workers[k]))
    && (forall k | k in w.workers && (w.workers[k].Executing? || w.workers[k].Returned?) ::
          w.workers[k].run in w.executions)
    && (forall r | r in w.lane.runs && w.lane.runs[r].status == Succeeded ::
          r in w.executions && !w.lane.runs[r].cancelRequested)
  }

  // While the lane is open, whoever is busy is so with the lane's run.
  predicate OpenLane(w: World) {
    !w.lane.disabled ==> forall k | k in w.workers && Busy(w.workers[k]) :: w.lane.active == Some(w.workers[k].run)
  }

  predicate Exclusive(w: World) {
    OnePerRun(w) && OpenLane(w)
  }

  // No run succeeds by this change, and the lane passes on only if nobody is busy.
  lemma LaneMoves(w: World, l: Lane)
    requires Exclusive(w) && Grows(w.lane, l)
    requires forall r | r in l.runs && l.runs[r].status == Succeeded ::
               r in w.lane.runs && w.lane.runs[r].status == Succeeded
    requires l.disabled || l.active == w.lane.active || NobodyBusy(w)
    ensures Exclusive(w.(lane := l))
  {
    hide B.Standing, Busy, Cleaned;
    var m := w.(lane := l);
    assert OnePerRun(m) by {
      forall r | Issued(w.lane, r) ensures Issued(l, r) {
      }
    }
    assert NobodyBusy(w) ==> NobodyBusy(m);
  }

  predicate NobodyBusy(w: World) {
    forall k | k in w.workers :: !Busy(w.workers[k])
  }

  // As long as the lane's run is not claimed, or has been cleaned up after.
  lemma Nobody(w: World, run: RunId)
    requires Safe(w) && Exclusive(w) && !w.lane.disabled
    requires w.lane.active.Some? ==>
               w.lane.active == Some(run) && run in w.lane.runs
               && (w.lane.runs[run].status == Queued
                   || exists k :: k in w.workers && w.workers[k].run == run && Cleaned(w.workers[k]))
    ensures NobodyBusy(w)
  {
    hide Sound, Cleaned, Busy;
    if w.lane.active.Some? {
      if w.lane.runs[run].status == Queued {
        NotIssued(w.lane, run);
      } else {
        var j :| j in w.workers && w.workers[j].run == run && Cleaned(w.workers[j]);
        BusyOrCleaned(w.workers[j]);
      }
    }
  }

  lemma BusyOrCleaned(p: Phase)
    ensures !(Busy(p) && Cleaned(p))
  {
  }

  lemma FinishExclusive(w: World, run: RunId, category: Category, billable: bool, cleanup: bool, revoked: bool,
                        accounted: bool)
    requires Safe(w) && Exclusive(w)
    requires billable && cleanup ==> exists k :: k in w.workers && w.workers[k].run == run && Cleaned(w.workers[k])
    ensures Exclusive(w.(lane := Finish(w.lane, run, category, billable, cleanup, revoked, accounted)))
  {
    hide Sound, Grows, WorkersOk, Exclusive, Finish, B.Standing, Cleaned, NobodyBusy;
    var l := Finish(w.lane, run, category, billable, cleanup, revoked, accounted);
    FinishSound(w.lane, run, category, billable, cleanup, revoked, accounted);
    FinishEnds(w.lane, run, category, billable, cleanup, revoked, accounted);
    if run in w.lane.runs && Active(w.lane.runs[run]) {
      RunAt(w.lane, run);
      FinishFrees(w.lane, run, category, billable, cleanup, revoked, accounted);
      if !l.disabled {
        Nobody(w, run);
      }
    }
    LaneMoves(w, l);
  }

  lemma CancelExclusive(w: World, run: RunId, revoked: bool, accounted: bool)
    requires Safe(w) && Exclusive(w)
    ensures Exclusive(w.(lane := CancelRun(w.lane, run, revoked, accounted)))
  {
    hide Sound, Grows, WorkersOk, Exclusive, CancelRun, B.Standing, NobodyBusy;
    var l := CancelRun(w.lane, run, revoked, accounted);
    CancelSound(w.lane, run, revoked, accounted);
    CancelEnds(w.lane, run, revoked, accounted);
    if l != w.lane {
      RunAt(w.lane, run);
      OpenBefore(w.lane, l);
      if !l.disabled && w.lane.runs[run].status == Queued {
        Nobody(w, run);
      }
    }
    LaneMoves(w, l);
  }

  lemma OpenBefore(l: Lane, m: Lane)
    requires Grows(l, m)
    ensures l.disabled ==> m.disabled
  {
  }

  lemma StartExclusive(w: World, catalog: B.Catalog, key: nat, owner: Owner, operator: bool, run: RunId, a: Admission)
    requires Safe(w) && Exclusive(w) && B.Standing(w.lane.books, run).None?
    ensures var r := StartRun(w.lane, catalog, key, owner, operator, run, a);
            r.Ok? ==> Exclusive(w.(lane := r.value.0))
  {
    hide Sound, Grows, WorkersOk, Exclusive, B.Standing, NobodyBusy, B.Reserve;
    var r := StartRun(w.lane, catalog, key, owner, operator, run, a);
    StartSound(w.lane, catalog, key, owner, operator, run, a);
    if r.Ok? {
      if r.value.0.active != w.lane.active {
        Nobody(w, run);
      }
      LaneMoves(w, r.value.0);
    }
  }

  lemma DeliverExclusive(w: World, worker: nat, run: RunId, refusal: Option<Category>, lost: bool)
    requires Safe(w) && Exclusive(w)
    ensures Exclusive(NextDeliver(w, worker, run, refusal, lost))
  {
    hide Sound, Grows, WorkersOk, B.Standing, NobodyBusy, Exclusive;
    var (l, claim) := ClaimRun(w.lane, run, refusal);
    if worker !in w.workers && claim != Ignored {
      if claim == Granted {
        NotIssued(w.lane, run);
        ClaimSound(w.lane, run, refusal);
        LaneMoves(w, l);
        JoinsExclusive(w.(lane := l), w.lane, worker, NextDeliver(w, worker, run, refusal, lost).workers[worker]);
      } else {
        JoinsExclusive(w, w.lane, worker, NextDeliver(w, worker, run, refusal, lost).workers[worker]);
      }
    }
  }

  // A worker that joins is not busy, or is the first one with a run of the lane.
  lemma JoinsExclusive(w: World, before: Lane, worker: nat, p: Phase)
    requires Exclusive(w) && worker !in w.workers && !p.Executing? && !p.Returned? && !Cleaned(p)
    requires Busy(p) ==> && Issued(w.lane, p.run) && w.lane.active == Some(p.run) && !Issued(before, p.run)
                         && Exclusive(w.(lane := before))
    ensures Exclusive(w.(workers := w.workers[worker := p]))
  {
    hide Issued;
    if Busy(p) {
      OthersIssued(w.(lane := before));
    }
  }

  lemma OthersIssued(w: World)
    requires Exclusive(w)
    ensures forall k | k in w.workers && (Busy(w.workers[k]) || Cleaned(w.workers[k])) ::
              Issued(w.lane, w.workers[k].run)
  {
  }

  // A worker goes on, or has failed.
  lemma MovesExclusive(w: World, worker: nat, p: Phase)
    requires Exclusive(w) && worker in w.workers && Busy(w.workers[worker]) && p.run == w.workers[worker].run
    requires p.Executing? || p.Returned? ==> p.run in w.executions
    ensures Exclusive(w.(workers := w.workers[worker := p]))
  {
    hide Issued;
  }

  lemma LessExclusive(w: World, worker: nat)
    requires Exclusive(w)
    ensures Exclusive(w.(workers := w.workers - {worker}))
  {
    hide Issued, Busy, Cleaned;
  }

  lemma CallExclusive(w: World, worker: nat)
    requires Exclusive(w) && worker in w.workers && w.workers[worker].Claimed?
    ensures var run := w.workers[worker].run;
            Exclusive(w.(executions := w.executions + [run], workers := w.workers[worker := Executing(run)]))
  {
    hide Issued;
    var run := w.workers[worker].run;
    var m := w.(executions := w.executions + [run]);
    assert run in m.executions;
    assert Exclusive(m);
    MovesExclusive(m, worker, Executing(run));
  }

  // The run that has succeeded was executed by this worker, and the lane is free.
  lemma CompleteExclusive(w: World, worker: nat, refusal: Option<Category>, revoked: bool, cleanup: bool, lost: bool)
    requires Safe(w) && Exclusive(w)
    ensures Exclusive(NextComplete(w, worker, refusal, revoked, cleanup, lost))
  {
    hide Sound, Grows, WorkersOk, Exclusive, B.Standing, B.Settle, B.Priced, Cost;
    if worker in w.workers && w.workers[worker].Returned? && w.workers[worker].run in w.lane.runs {
      var p := w.workers[worker];
      var (l, done) := CompleteRun(w.lane, p.run, p.usage, refusal, revoked);
      if done == Done {
        CompleteSound(w.lane, p.run, p.usage, refusal, revoked);
        SucceedsExclusive(w, worker, l);
        var m := World(l, w.workers - {worker}, w.executions);
        if lost {
          var failing := Failing(p.run, Dependency, true, cleanup);
          BackExclusive(m, worker, failing);
          assert (w.workers - {worker})[worker := failing] == w.workers[worker := failing];
        }
      } else {
        MovesExclusive(w, worker, NextComplete(w, worker, refusal, revoked, cleanup, lost).workers[worker]);
      }
    }
  }

  lemma SucceedsExclusive(w: World, worker: nat, l: Lane)
    requires Safe(w) && Exclusive(w) && worker in w.workers && w.workers[worker].Returned?
    requires var run := w.workers[worker].run;
             && w.lane.active == Some(run) && !w.lane.disabled && l.active == None && Grows(w.lane, l)
             && run in w.lane.runs && run in l.runs && l.runs == w.lane.runs[run := l.runs[run]]
             && !l.runs[run].cancelRequested && l.runs[run].capability != NoCapability
    ensures Exclusive(World(l, w.workers - {worker}, w.executions))
    ensures forall k | k in w.workers && k != worker :: !Busy(w.workers[k])
    ensures Issued(l, w.workers[worker].run)
  {
    hide Sound, WorkersOk, Grows;
    IssuedGrowsOnly(w.lane, l);
  }

  lemma IssuedGrowsOnly(l: Lane, m: Lane)
    requires Grows(l, m)
    ensures forall r | Issued(l, r) :: Issued(m, r)
  {
    hide B.Standing;
  }

  lemma BackExclusive(w: World, worker: nat, p: Phase)
    requires Exclusive(w) && NobodyBusy(w) && !Busy(p) && Issued(w.lane, p.run)
    ensures Exclusive(w.(workers := w.workers[worker := p]))
  {
    hide Issued;
  }

  lemma NextExclusive(w: World, catalog: B.Catalog, s: Step)
    requires Safe(w) && Exclusive(w)
    ensures Exclusive(Next(w, catalog, s))
  {
    hide Safe, Exclusive, Finish, CancelRun, StartRun, NextDeliver, NextComplete, Accepts, BookAllowed, B.Standing,
         B.Apply;
    match s {
      case Start(key, owner, operator, run, a) =>
        if B.Standing(w.lane.books, run).None? {
          StartExclusive(w, catalog, key, owner, operator, run, a);
        }
      case DispatchFailed(run, revoked, accounted) =>
        FinishExclusive(w, run, Dependency, false, true, revoked, accounted);
      case Deliver(worker, run, refusal, lost) => DeliverExclusive(w, worker, run, refusal, lost);
      case Call(worker) =>
        if worker in w.workers && w.workers[worker].Claimed? {
          CallExclusive(w, worker);
        }
      case Return(worker, result, category, cleanup) =>
        if worker in w.workers && w.workers[worker].Executing? {
          ReturnedExecuted(w, worker);
          MovesExclusive(w, worker, Next(w, catalog, s).workers[worker]);
        }
      case Complete(worker, refusal, revoked, cleanup, lost) =>
        CompleteExclusive(w, worker, refusal, revoked, cleanup, lost);
      case Conclude(worker, revoked, accounted) =>
        if worker in w.workers && w.workers[worker].Failing? {
          var p := w.workers[worker];
          FinishExclusive(w, p.run, p.category, p.billable, p.cleanup, revoked, accounted);
          LessExclusive(w.(lane := Next(w, catalog, s).lane), worker);
        }
      case Cancel(run, revoked, accounted) => CancelExclusive(w, run, revoked, accounted);
      case Book(step) => BookExclusive(w, Next(w, catalog, s).lane);
      case Crash(worker) => LessExclusive(w, worker);
    }
  }

  lemma ReturnedExecuted(w: World, worker: nat)
    requires Exclusive(w) && worker in w.workers && w.workers[worker].Executing?
    ensures w.workers[worker].run in w.executions
  {
  }

  lemma BookExclusive(w: World, l: Lane)
    requires Exclusive(w) && l == w.lane.(books := l.books)
    ensures Exclusive(w.(lane := l))
  {
    assert forall r :: Issued(w.lane, r) == Issued(l, r);
  }

  lemma {:induction false} AlwaysExclusive(catalog: B.Catalog, steps: seq<Step>)
    ensures Safe(Runs(Init(), catalog, steps)) && Exclusive(Runs(Init(), catalog, steps))
  {
    hide Safe, Next;
    InitSafe(catalog);
    AlwaysSafe(Init(), catalog, steps);
    if steps != [] {
      var before := Runs(Init(), catalog, steps[..|steps| - 1]);
      hide Exclusive;
      AlwaysExclusive(catalog, steps[..|steps| - 1]);
      NextExclusive(before, catalog, steps[|steps| - 1]);
    }
  }

  // In every reachable state with an open lane, a worker that has claimed a run and not yet ended it
  // is the only one, and the run is the lane's: no two executions are under way at once.
  lemma OneExecution(catalog: B.Catalog, steps: seq<Step>, j: nat, k: nat)
    requires var w := Runs(Init(), catalog, steps);
             !w.lane.disabled && j in w.workers && k in w.workers && Busy(w.workers[j]) && Busy(w.workers[k])
    ensures var w := Runs(Init(), catalog, steps); j == k && w.lane.active == Some(w.workers[j].run)
  {
    hide Safe, Next, Runs;
    AlwaysExclusive(catalog, steps);
  }

  // A run succeeds only after its adapter was asked to execute it, and never once it has been
  // cancelled.
  lemma SucceededExecuted(catalog: B.Catalog, steps: seq<Step>, run: RunId)
    requires var w := Runs(Init(), catalog, steps); run in w.lane.runs && w.lane.runs[run].status == Succeeded
    ensures var w := Runs(Init(), catalog, steps); run in w.executions && !w.lane.runs[run].cancelRequested
  {
    hide Safe, Next, Runs;
    AlwaysExclusive(catalog, steps);
  }

  // ---------------------------------------------------------------- cleanup that cannot be shown

  // After this step nobody can tell whether the run's child is still at work: it is delivered again,
  // its claim or its completion was not seen to commit, or its worker could not clean up after it or
  // not revoke its capability.
  predicate Unproved(w: World, s: Step, worker: nat, run: RunId) {
    && run in w.lane.runs
    && match s
       case Deliver(k, r, refusal, lost) =>
         && k == worker && r == run && worker !in w.workers
         && (w.lane.runs[run].status == Running || (lost && ClaimRun(w.lane, run, refusal).1 == Granted))
       case Return(k, result, _, cleanup) =>
         && k == worker && worker in w.workers && w.workers[worker] == Executing(run)
         && !cleanup && !(result.Some? && Accepts(w.lane, run, result.value))
       case Complete(k, refusal, revoked, cleanup, _) =>
         && k == worker && worker in w.workers && w.workers[worker].Returned? && w.workers[worker].run == run
         && var usage := w.workers[worker].usage;
            if CompleteRun(w.lane, run, usage, refusal, true).1 == Done then !revoked else !cleanup
       case _ => false
  }

  // A worker that has failed without cleaning up after a run that was claimed.
  predicate Doubtful(w: World, worker: nat, run: RunId, category: Category) {
    && worker in w.workers && w.workers[worker].Failing? && w.workers[worker].run == run
    && w.workers[worker].category == category && Issued(w.lane, run) && !Cleaned(w.workers[worker])
  }

  // What is reported then: a dependency that failed, unless the worker knows better.
  function Reported(w: World, s: Step, run: RunId): Category {
    match s
    case Return(_, _, category, _) => category
    case Complete(k, refusal, _, _, _) =>
      if k in w.workers && w.workers[k].Returned? && run in w.lane.runs then
        var done := CompleteRun(w.lane, run, w.workers[k].usage, refusal, true).1;
        if done == Done then Dependency else done.category
      else Dependency
    case _ => Dependency
  }

  lemma UnprovedDoubtful(w: World, catalog: B.Catalog, s: Step, worker: nat, run: RunId)
    requires Safe(w) && Unproved(w, s, worker, run)
    ensures Doubtful(Next(w, catalog, s), worker, run, Reported(w, s, run))
  {
    hide Sound, WorkersOk, Accepts, B.Standing, B.Settle, Cost, B.Priced;
    if s.Deliver? {
      if w.lane.runs[run].status == Running {
        RunningIssued(w.lane, run);
      }
    } else {
      WorkerIssued(w.lane, w.workers, w.executions, worker);
    }
  }

  lemma RunningIssued(l: Lane, run: RunId)
    requires Sound(l) && run in l.runs && l.runs[run].status == Running
    ensures Issued(l, run)
  {
    RunAt(l, run);
  }

  // It stays so until it concludes or crashes.
  predicate Leaves(steps: seq<Step>, worker: nat) {
    exists s :: s in steps && (s == Crash(worker) || (s.Conclude? && s.worker == worker))
  }

  lemma DoubtfulStays(w: World, catalog: B.Catalog, s: Step, worker: nat, run: RunId, category: Category)
    requires Safe(w) && Doubtful(w, worker, run, category) && s != Crash(worker) && !(s.Conclude? && s.worker == worker)
    ensures Doubtful(Next(w, catalog, s), worker, run, category)
  {
    hide Safe, Sound, Grows, Finish, CancelRun, StartRun, CompleteRun, ClaimRun, Accepts, BookAllowed, B.Standing,
         B.Apply, Cleaned, Issued;
    NextSafe(w, catalog, s);
    IssuedGrowsOnly(w.lane, Next(w, catalog, s).lane);
  }

  lemma LeavesLess(steps: seq<Step>, worker: nat)
    requires steps != [] && !Leaves(steps, worker)
    ensures !Leaves(steps[..|steps| - 1], worker)
    ensures var s := steps[|steps| - 1]; s != Crash(worker) && !(s.Conclude? && s.worker == worker)
  {
    assert steps[|steps| - 1] in steps;
    assert forall s | s in steps[..|steps| - 1] :: s in steps;
  }

  lemma {:induction false} DoubtfulWaits(w: World, catalog: B.Catalog, more: seq<Step>, worker: nat, run: RunId,
                                         category: Category)
    requires Safe(w) && Doubtful(w, worker, run, category) && !Leaves(more, worker)
    ensures Safe(Runs(w, catalog, more)) && Doubtful(Runs(w, catalog, more), worker, run, category)
  {
    hide Safe, Doubtful, Next, Leaves;
    if more != [] {
      LeavesLess(more, worker);
      DoubtfulWaits(w, catalog, more[..|more| - 1], worker, run, category);
      NextSafe(Runs(w, catalog, more[..|more| - 1]), catalog, more[|more| - 1]);
      DoubtfulStays(Runs(w, catalog, more[..|more| - 1]), catalog, more[|more| - 1], worker, run, category);
    }
  }

  lemma DoubtfulCloses(w: World, catalog: B.Catalog, worker: nat, run: RunId, category: Category, revoked: bool,
                       accounted: bool)
    requires Safe(w) && Doubtful(w, worker, run, category)
    ensures var l := Next(w, catalog, Conclude(worker, revoked, accounted)).lane;
            run in w.lane.runs
            && (Active(w.lane.runs[run]) ==>
                  run in l.runs && !Active(l.runs[run]) && l.runs[run].category == Some(category) && l.disabled)
  {
    hide Sound, WorkersOk, Finish;
    if Active(w.lane.runs[run]) {
      var p := w.workers[worker];
      if w.lane.runs[run].status == Queued {
        NotIssued(w.lane, run);
      }
      FinishFrees(w.lane, run, p.category, p.billable, p.cleanup, revoked, accounted);
    }
  }

  // In every run of the system, once it cannot be shown that the child of a run is gone, the lane is
  // closed as soon as the worker that failed concludes, whatever happens in between, unless the run
  // has been ended by another worker before.
  lemma UnprovedCloses(catalog: B.Catalog, steps: seq<Step>, s: Step, worker: nat, run: RunId, more: seq<Step>,
                       revoked: bool, accounted: bool)
    requires Unproved(Runs(Init(), catalog, steps), s, worker, run) && !Leaves(more, worker)
    ensures var w := Runs(Next(Runs(Init(), catalog, steps), catalog, s), catalog, more);
            var l := Next(w, catalog, Conclude(worker, revoked, accounted)).lane;
            run in w.lane.runs
            && (Active(w.lane.runs[run]) ==>
                  && run in l.runs && !Active(l.runs[run]) && l.disabled
                  && l.runs[run].category == Some(Reported(Runs(Init(), catalog, steps), s, run)))
  {
    hide Safe, Exclusive, Doubtful, Unproved, Reported, Next, Runs, Leaves;
    var category := Reported(Runs(Init(), catalog, steps), s, run);
    var before := Runs(Init(), catalog, steps);
    AlwaysExclusive(catalog, steps);
    UnprovedDoubtful(before, catalog, s, worker, run);
    NextSafe(before, catalog, s);
    DoubtfulWaits(Next(before, catalog, s), catalog, more, worker, run, category);
    DoubtfulCloses(Runs(Next(before, catalog, s), catalog, more), catalog, worker, run, category, revoked, accounted);
  }
}
