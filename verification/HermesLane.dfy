// The Hermes run lane: at most one run at a time, through redelivery, cancellation, failed cleanup
// and failed accounting. Each function on Lane is one database transaction.
module HermesLane {
  import opened Wrappers
  import opened Pricing
  import B = Budgets

  type RunId = B.RunId

  datatype RunStatus = Queued | Running | Succeeded | Failed | Cancelled

  datatype Category = NoBudget | CancelCategory | Dependency | InvalidOutput | Provider | TimedOut

  datatype Capability = NoCapability | Live | Revoked

  // A run with its control row. `disabled` is set when its cleanup or accounting could not be shown.
  datatype Run = Run(model: B.Model, status: RunStatus, category: Option<Category>, started: bool, finished: bool,
                     cancelRequested: bool, disabled: bool, capability: Capability, used: Tokens, cost: nat)

  datatype Owner = Owner(actor: nat, workflow: nat, revision: nat)

  datatype Receipt = Receipt(owner: Owner, run: RunId)

  datatype Lane = Lane(active: Option<RunId>, disabled: bool, runs: map<RunId, Run>, receipts: map<nat, Receipt>,
                       books: B.Books)

  // What a start request meets: the lane switched on, the workflow ready, the configured profile.
  datatype Admission = Admission(enabled: bool, ready: bool, profile: (nat, nat), now: B.Moment, lease: int)

  datatype StartError = Denied | Conflicting

  datatype Usage = Usage(tokens: Tokens, cost: nat)

  predicate Active(run: Run) {
    run.status == Queued || run.status == Running
  }

  // Runs whose reservation must not expire.
  function Protected(l: Lane): set<RunId> {
    set r | r in l.runs && (Active(l.runs[r]) || l.runs[r].disabled)
  }

  // ---------------------------------------------------------------- transactions

  function QueueRun(l: Lane, catalog: B.Catalog, run: RunId, a: Admission): Option<Lane> {
    if || !a.enabled || l.disabled || (exists r | r in l.runs :: l.runs[r].disabled) || l.active.Some?
       || (exists r | r in l.runs :: Active(l.runs[r])) || !a.ready || a.profile !in catalog || run in l.runs then None
    else
      var model := catalog[a.profile];
      var q := B.Request(run, a.profile, model.maxTokens.input, model.maxTokens.output, Some(a.lease));
      var reserved := B.Reserve(l.books, catalog, a.now, Protected(l), q);
      if reserved.Err? then None
      else Some(l.(active := Some(run), books := reserved.value,
                   runs := l.runs[run := Run(model, Queued, None, false, false, false, false, NoCapability,
                                             Tokens(0, 0), 0)]))
  }

  function StartRun(l: Lane, catalog: B.Catalog, key: nat, owner: Owner, operator: bool, run: RunId,
                    a: Admission): Result<(Lane, RunId), StartError> {
    if !operator then Err(Denied)
    else if key in l.receipts then
      if l.receipts[key].owner == owner then Ok((l, l.receipts[key].run)) else Err(Conflicting)
    else
      var queued := QueueRun(l, catalog, run, a);
      if queued.None? then Err(Denied) else Ok((queued.value.(receipts := l.receipts[key := Receipt(owner, run)]), run))
  }

  function Account(books: B.Books, run: RunId, billable: bool): B.Books {
    if billable then B.Charge(books, run) else B.Release(books, run)
  }

  // Ends a run: charges or releases its reservation. If that fails the reservation is retained and
  // the lane is closed.
  function Terminal(l: Lane, run: RunId, category: Category, billable: bool, accounted: bool): Lane
    requires run in l.runs
  {
    var r := l.runs[run];
    var books := if accounted then Account(l.books, run, billable) else l.books;
    var standing := B.Standing(books, run);
    var settled := accounted && standing.Some? && standing.value.status.Settled?;
    l.(active := if l.active == Some(run) then None else l.active,
       disabled := l.disabled || !accounted,
       books := books,
       runs := l.runs[run := r.(status := if category == CancelCategory then Cancelled else Failed,
                                category := Some(category),
                                started := true, finished := true, disabled := r.disabled || !accounted,
                                used := if settled then standing.value.status.used else r.used,
                                cost := if settled then standing.value.status.actual else r.cost)])
  }

  // Revokes the run's capability if it has one; `ok` says whether that worked.
  function Revoke(r: Run, ok: bool): Run {
    if ok && r.capability == Live then r.(capability := Revoked) else r
  }

  // Before a run ends: its capability is revoked, and unless the cleanup is clean the lane is closed.
  function Mark(l: Lane, run: RunId, cancel: bool, revoked: bool, clean: bool): Lane
    requires run in l.runs
  {
    var r := Revoke(l.runs[run], revoked);
    l.(disabled := l.disabled || !clean,
       runs := l.runs[run := r.(cancelRequested := r.cancelRequested || cancel, disabled := r.disabled || !clean)])
  }

  function Finish(l: Lane, run: RunId, category: Category, billable: bool, cleanup: bool, revoked: bool,
                  accounted: bool): Lane {
    if run !in l.runs || !Active(l.runs[run]) then l
    else
      var r := l.runs[run];
      // A caller that believes the run never started is wrong once another worker has claimed it.
      var overtaken := r.status == Running && !billable;
      var clean := cleanup && !overtaken && revoked;
      Terminal(Mark(l, run, false, revoked, clean), run,
               if clean && r.cancelRequested then CancelCategory else category, billable || overtaken, accounted)
  }

  function CancelRun(l: Lane, run: RunId, revoked: bool, accounted: bool): Lane {
    if run !in l.runs || !Active(l.runs[run]) || l.runs[run].cancelRequested then l
    else
      var marked := Mark(l, run, true, revoked, revoked);
      if l.runs[run].status == Queued then Terminal(marked, run, CancelCategory, false, accounted) else marked
  }

  datatype Claim = Ignored | Redelivered | Refused(category: Category) | Granted

  function ClaimRun(l: Lane, run: RunId, refusal: Option<Category>): (Lane, Claim) {
    if run !in l.runs || !Active(l.runs[run]) then (l, Ignored)
    else
      var r := l.runs[run];
      if r.status == Running then (l, Redelivered)
      else if l.active != Some(run) || l.disabled || r.disabled then (l, Refused(Dependency))
      else if r.cancelRequested then (l, Refused(CancelCategory))
      else if refusal.Some? then (l, Refused(refusal.value))
      else (l.(runs := l.runs[run := r.(status := Running, started := true, capability := Live)]), Granted)
  }

  datatype Completion = Done | Rejected(category: Category, quarantine: bool)

  function CompleteRun(l: Lane, run: RunId, usage: Usage, refusal: Option<Category>, revoked: bool): (Lane, Completion)
    requires run in l.runs
  {
    var r := l.runs[run];
    if r.status != Running then (l, Rejected(InvalidOutput, false))
    else if l.disabled || l.active != Some(run) then (l, Rejected(Dependency, false))
    else if r.cancelRequested then (l, Rejected(CancelCategory, false))
    else if r.capability != Live then (l, Rejected(InvalidOutput, false))
    else if refusal.Some? then (l, Rejected(refusal.value, false))
    else if !B.Priced(r.model) || usage.cost != Cost(B.RatesOf(r.model), usage.tokens)
         then (l, Rejected(InvalidOutput, false))
    else if !revoked then (l, Rejected(Dependency, true))
    else
      var settled := B.Settle(l.books, run, usage.tokens.input, usage.tokens.output);
      if settled.Err? then (l, Rejected(Dependency, false))
      else (l.(active := None, books := settled.value,
               runs := l.runs[run := r.(status := Succeeded, finished := true, capability := Revoked,
                                        used := usage.tokens, cost := usage.cost)]),
            Done)
  }

  // ---------------------------------------------------------------- the invariant

  // The lifecycle that a run row must show.
  predicate Clean(r: Run) {
    && (r.status == Queued ==> !r.started && !r.finished)
    && (r.status == Running ==> r.started && !r.finished)
    && (r.status == Succeeded || r.status == Failed ==> r.started && r.finished)
    && (r.status == Cancelled ==> r.finished)
    && (r.status == Failed ==> r.category.Some?)
    && (r.status == Cancelled ==> r.category == Some(CancelCategory))
    && (r.status != Failed && r.status != Cancelled ==> r.category.None?)
  }

  // A run and its reservation. An ended run is accounted for and has no live capability unless it
  // disabled the lane, and it shows exactly the usage that was settled.
  predicate RunOk(r: Run, standing: Option<B.Reservation>, laneDisabled: bool) {
    && Clean(r)
    && standing.Some? && standing.value.model == r.model
    && (Active(r) ==> standing.value.status == B.Reserved && standing.value.estimate == r.model.maxTokens)
    && (r.status == Queued ==> r.capability == NoCapability) && (r.status == Running ==> r.capability != NoCapability)
    && (!Active(r) && !r.disabled ==> standing.value.status != B.Reserved && r.capability != Live)
    && (r.status == Succeeded ==> !r.disabled && standing.value.status.Settled?)
    && (r.disabled ==> laneDisabled)
    && (r.capability != NoCapability ==> standing.value.status != B.Released)
    && (if standing.value.status.Settled?
        then r.used == standing.value.status.used && r.cost == standing.value.status.actual
        else r.used == Tokens(0, 0) && r.cost == 0)
  }

  predicate LaneOk(l: Lane) {
    && (l.active.Some? ==> l.active.value in l.runs && Active(l.runs[l.active.value]))
    && (forall r | r in l.runs && Active(l.runs[r]) :: l.active == Some(r))
  }

  predicate ReceiptsOk(l: Lane) {
    && (forall k | k in l.receipts :: l.receipts[k].run in l.runs)
    && (forall j, k | j in l.receipts && k in l.receipts && j != k :: l.receipts[j].run != l.receipts[k].run)
  }

  predicate RunsOk(l: Lane) {
    forall r | r in l.runs :: RunOk(l.runs[r], B.Standing(l.books, r), l.disabled)
  }

  predicate Sound(l: Lane) {
    B.Balanced(l.books) && LaneOk(l) && RunsOk(l) && ReceiptsOk(l)
  }

  // What no transaction undoes: an ended run and its reservation stay as they are, an issued
  // capability was issued, a receipt stands, and a disabled lane stays disabled and admits nothing.
  predicate Grows(l: Lane, m: Lane) {
    && (forall r | r in l.runs ::
          r in m.runs && RunGrows(l.runs[r], m.runs[r], B.Standing(l.books, r), B.Standing(m.books, r)))
    && (forall k | k in l.receipts :: k in m.receipts && m.receipts[k] == l.receipts[k])
    && (l.disabled ==> m.disabled && m.runs.Keys == l.runs.Keys)
  }

  predicate RunGrows(r: Run, r': Run, standing: Option<B.Reservation>, standing': Option<B.Reservation>) {
    && r'.model == r.model
    && (r.capability != NoCapability ==> r'.capability != NoCapability)
    && (!Active(r) ==> r' == r && standing' == standing)
  }

  lemma GrowsSelf(l: Lane)
    ensures Grows(l, l)
  {
  }

  lemma GrowsOn(l: Lane, m: Lane, n: Lane)
    requires Grows(l, m) && Grows(m, n)
    ensures Grows(l, n)
  {
    hide B.Standing;
    forall k | k in l.receipts ensures k in n.receipts && n.receipts[k] == l.receipts[k] {
      assert k in m.receipts;
    }
  }

  // Changing one run's row keeps the others as long as their reservations stand.
  lemma RowSound(l: Lane, m: Lane, run: RunId)
    requires Sound(l) && run in m.runs && m.runs == l.runs[run := m.runs[run]] && m.receipts == l.receipts
    requires l.disabled ==> m.disabled
    requires B.Balanced(m.books) && LaneOk(m) && RunOk(m.runs[run], B.Standing(m.books, run), m.disabled)
    requires forall r | r in l.runs && r != run :: B.Standing(m.books, r) == B.Standing(l.books, r)
    requires run in l.runs ==> Active(l.runs[run]) && m.runs[run].model == l.runs[run].model
    requires run in l.runs && l.runs[run].capability != NoCapability ==> m.runs[run].capability != NoCapability
    requires run !in l.runs ==> !l.disabled
    ensures Sound(m) && Grows(l, m)
  {
    hide B.Balanced, B.Standing, Clean;
    forall r | r in m.runs ensures RunOk(m.runs[r], B.Standing(m.books, r), m.disabled) {
      if r != run {
        assert RunOk(l.runs[r], B.Standing(l.books, r), l.disabled);
      }
    }
    assert Grows(l, m) by {
      hide RunOk, LaneOk, ReceiptsOk;
    }
  }

  lemma RunAt(l: Lane, run: RunId)
    requires Sound(l) && run in l.runs
    ensures RunOk(l.runs[run], B.Standing(l.books, run), l.disabled)
    ensures Active(l.runs[run]) ==> l.active == Some(run)
  {
  }

  // Closing one run's reservation, or failing to.
  lemma Closed(books: B.Books, run: RunId, billable: bool, accounted: bool)
    requires B.Balanced(books) && B.Standing(books, run).Some? && B.Standing(books, run).value.status == B.Reserved
    ensures var r := B.Standing(books, run).value;
            var after := if accounted then Account(books, run, billable) else books;
            && B.Balanced(after)
            && B.Standing(after, run)
               == Some(r.(status := if !accounted then B.Reserved else if billable then B.Settled(r.estimate, r.cost)
                                                                      else B.Released))
            && forall other | other != run && B.Standing(books, other).Some? ::
                 B.Standing(after, other) == B.Standing(books, other)
  {
    hide B.Balanced, B.Standing, B.Charge, B.Release;
    if accounted {
      var step := if billable then B.ChargeStep(run) else B.ReleaseStep(run);
      B.ApplyBalanced(books, map[], step);
      B.Touched(books, map[], step, run);
      forall other | other != run && B.Standing(books, other).Some?
        ensures B.Standing(B.Apply(books, map[], step), other) == B.Standing(books, other)
      {
        B.Untouched(books, map[], step, other);
      }
    }
  }

  lemma TerminalSound(l: Lane, run: RunId, category: Category, billable: bool, accounted: bool)
    requires Sound(l) && run in l.runs && Active(l.runs[run])
    requires l.runs[run].disabled || l.runs[run].capability != Live
    requires l.runs[run].status == Running ==> billable
    ensures Sound(Terminal(l, run, category, billable, accounted))
            && Grows(l, Terminal(l, run, category, billable, accounted))
  {
    hide Sound, B.Balanced, B.Standing, B.Charge, B.Release;
    RunAt(l, run);
    RunsStand(l);
    Closed(l.books, run, billable, accounted);
    LaneAfter(l, run);
    RowSound(l, Terminal(l, run, category, billable, accounted), run);
  }

  lemma RunsStand(l: Lane)
    requires Sound(l)
    ensures B.Balanced(l.books)
    ensures forall r | r in l.runs :: B.Standing(l.books, r).Some?
  {
    forall r | r in l.runs ensures B.Standing(l.books, r).Some? {
      RunAt(l, r);
    }
  }

  lemma LaneAfter(l: Lane, run: RunId)
    requires Sound(l) && run in l.runs && Active(l.runs[run])
    ensures l.active == Some(run)
    ensures forall r | r in l.runs && r != run :: !Active(l.runs[r])
  {
  }

  // Marking an active run: flags, capability and the step to running.
  lemma MarkSound(l: Lane, m: Lane, run: RunId)
    requires Sound(l) && run in l.runs && Active(l.runs[run])
    requires run in m.runs && m == l.(disabled := m.disabled, runs := l.runs[run := m.runs[run]])
             && (l.disabled ==> m.disabled)
    requires var r, r' := l.runs[run], m.runs[run];
             && Active(r') && Clean(r') && r'.model == r.model && r'.used == r.used && r'.cost == r.cost
             && (r'.status == Queued ==> r'.capability == NoCapability)
             && (r'.status == Running ==> r'.capability != NoCapability) && (r'.disabled ==> m.disabled)
             && (r.capability != NoCapability ==> r'.capability != NoCapability)
    ensures Sound(m) && Grows(l, m)
  {
    hide Sound, B.Balanced, B.Standing, Clean;
    RunAt(l, run);
    RunsStand(l);
    LaneAfter(l, run);
    RowSound(l, m, run);
  }

  lemma MarkedSound(l: Lane, run: RunId, cancel: bool, revoked: bool, clean: bool)
    requires Sound(l) && run in l.runs && Active(l.runs[run]) && (clean ==> revoked)
    ensures var m := Mark(l, run, cancel, revoked, clean);
            && Sound(m) && Grows(l, m) && run in m.runs
            && m.runs[run].status == l.runs[run].status && (m.runs[run].disabled || m.runs[run].capability != Live)
  {
    hide Sound, Grows, B.Standing;
    RunAt(l, run);
    MarkSound(l, Mark(l, run, cancel, revoked, clean), run);
  }

  lemma FinishSound(l: Lane, run: RunId, category: Category, billable: bool, cleanup: bool, revoked: bool,
                    accounted: bool)
    requires Sound(l)
    ensures Sound(Finish(l, run, category, billable, cleanup, revoked, accounted))
            && Grows(l, Finish(l, run, category, billable, cleanup, revoked, accounted))
  {
    hide Sound, Grows, Terminal, Mark;
    GrowsSelf(l);
    if run in l.runs && Active(l.runs[run]) {
      var r := l.runs[run];
      var overtaken := r.status == Running && !billable;
      var clean := cleanup && !overtaken && revoked;
      MarkedSound(l, run, false, revoked, clean);
      var marked := Mark(l, run, false, revoked, clean);
      TerminalSound(marked, run, if clean && r.cancelRequested then CancelCategory else category, billable || overtaken,
                    accounted);
      GrowsOn(l, marked, Finish(l, run, category, billable, cleanup, revoked, accounted));
    }
  }

  lemma CancelSound(l: Lane, run: RunId, revoked: bool, accounted: bool)
    requires Sound(l)
    ensures Sound(CancelRun(l, run, revoked, accounted)) && Grows(l, CancelRun(l, run, revoked, accounted))
  {
    hide Sound, Grows, Terminal, Mark;
    GrowsSelf(l);
    if run in l.runs && Active(l.runs[run]) && !l.runs[run].cancelRequested {
      MarkedSound(l, run, true, revoked, revoked);
      var marked := Mark(l, run, true, revoked, revoked);
      if l.runs[run].status == Queued {
        TerminalSound(marked, run, CancelCategory, false, accounted);
        GrowsOn(l, marked, CancelRun(l, run, revoked, accounted));
      }
    }
  }

  lemma ClaimSound(l: Lane, run: RunId, refusal: Option<Category>)
    requires Sound(l)
    ensures Sound(ClaimRun(l, run, refusal).0) && Grows(l, ClaimRun(l, run, refusal).0)
  {
    hide Sound, Grows, LaneOk, RunsOk, B.Standing;
    GrowsSelf(l);
    if ClaimRun(l, run, refusal).1 == Granted {
      RunAt(l, run);
      MarkSound(l, ClaimRun(l, run, refusal).0, run);
    }
  }

  lemma CompleteSound(l: Lane, run: RunId, usage: Usage, refusal: Option<Category>, revoked: bool)
    requires Sound(l) && run in l.runs
    ensures Sound(CompleteRun(l, run, usage, refusal, revoked).0)
            && Grows(l, CompleteRun(l, run, usage, refusal, revoked).0)
  {
    hide Sound, Grows, RunsOk, B.Standing, B.Settle, B.Balanced, Cost;
    var (m, done) := CompleteRun(l, run, usage, refusal, revoked);
    GrowsSelf(l);
    if done == Done {
      var step := B.SettleStep(run, usage.tokens.input, usage.tokens.output);
      RunAt(l, run);
      RunsStand(l);
      LaneAfter(l, run);
      B.ApplyBalanced(l.books, map[], step);
      B.Touched(l.books, map[], step, run);
      forall r | r in l.runs && r != run ensures B.Standing(m.books, r) == B.Standing(l.books, r) {
        B.Untouched(l.books, map[], step, r);
      }
      RowSound(l, m, run);
    }
  }

  lemma ReceiptAdded(l: Lane, key: nat, owner: Owner, run: RunId)
    requires Sound(l) && key !in l.receipts && run in l.runs && forall k | k in l.receipts :: l.receipts[k].run != run
    ensures Sound(l.(receipts := l.receipts[key := Receipt(owner, run)]))
            && Grows(l, l.(receipts := l.receipts[key := Receipt(owner, run)]))
  {
    hide B.Balanced, B.Standing, RunOk;
    var m := l.(receipts := l.receipts[key := Receipt(owner, run)]);
    forall r | r in m.runs ensures RunOk(m.runs[r], B.Standing(m.books, r), m.disabled) {
      assert RunOk(l.runs[r], B.Standing(l.books, r), l.disabled);
    }
  }

  // The runs of the lane are safe from expiry: protected, or closed already.
  lemma RunsKept(l: Lane, catalog: B.Catalog, step: B.Step)
    requires Sound(l)
    requires step.ReserveStep? ==> step.protected == Protected(l)
    requires step.ExpireStep? ==> step.protected == Protected(l)
    ensures B.Balanced(B.Apply(l.books, catalog, step))
    ensures forall r | r in l.runs && B.Subject(step) != Some(r) ::
              B.Standing(B.Apply(l.books, catalog, step), r) == B.Standing(l.books, r)
  {
    hide Sound, B.Balanced, B.Standing, B.Apply;
    RunsStand(l);
    B.ApplyBalanced(l.books, catalog, step);
    forall r | r in l.runs && B.Subject(step) != Some(r)
      ensures B.Standing(B.Apply(l.books, catalog, step), r) == B.Standing(l.books, r)
    {
      RunAt(l, r);
      B.Untouched(l.books, catalog, step, r);
    }
  }

  lemma QueueSound(l: Lane, catalog: B.Catalog, run: RunId, a: Admission)
    requires Sound(l) && B.Standing(l.books, run).None?
    ensures var m := QueueRun(l, catalog, run, a);
            m.Some? ==>
              Sound(m.value) && Grows(l, m.value) && run in m.value.runs && run !in l.runs
                && m.value.receipts == l.receipts
  {
    hide Sound, RunsOk, B.Standing, B.Reserve, B.Balanced;
    var queued := QueueRun(l, catalog, run, a);
    if queued.Some? {
      var model := catalog[a.profile];
      var q := B.Request(run, a.profile, model.maxTokens.input, model.maxTokens.output, Some(a.lease));
      RunsStand(l);
      RunsKept(l, catalog, B.ReserveStep(a.now, Protected(l), q));
      B.Reserves(l.books, catalog, a.now, Protected(l), q);
      RowSound(l, queued.value, run);
    }
  }

  lemma StartSound(l: Lane, catalog: B.Catalog, key: nat, owner: Owner, operator: bool, run: RunId, a: Admission)
    requires Sound(l) && B.Standing(l.books, run).None?
    ensures var r := StartRun(l, catalog, key, owner, operator, run, a);
            r.Ok? ==> Sound(r.value.0) && Grows(l, r.value.0)
  {
    hide Sound, Grows, RunsOk, B.Standing, QueueRun;
    var r := StartRun(l, catalog, key, owner, operator, run, a);
    GrowsSelf(l);
    if r.Ok? && key !in l.receipts {
      QueueSound(l, catalog, run, a);
      ReceiptsKnown(l);
      ReceiptAdded(QueueRun(l, catalog, run, a).value, key, owner, run);
      GrowsOn(l, QueueRun(l, catalog, run, a).value, r.value.0);
    }
  }

  lemma ReceiptsKnown(l: Lane)
    requires Sound(l)
    ensures forall k | k in l.receipts :: l.receipts[k].run in l.runs
  {
  }

  // Budget operations of others, and expiry.
  lemma BooksSound(l: Lane, catalog: B.Catalog, step: B.Step)
    requires Sound(l) && (B.Subject(step).Some? ==> B.Subject(step).value !in l.runs)
    requires step.ReserveStep? ==> step.protected == Protected(l)
    requires step.ExpireStep? ==> step.protected == Protected(l)
    ensures Sound(l.(books := B.Apply(l.books, catalog, step)))
            && Grows(l, l.(books := B.Apply(l.books, catalog, step)))
  {
    hide B.Apply, B.Balanced, B.Standing, RunOk;
    RunsKept(l, catalog, step);
    var m := l.(books := B.Apply(l.books, catalog, step));
    forall r | r in m.runs ensures RunOk(m.runs[r], B.Standing(m.books, r), m.disabled) {
      assert RunOk(l.runs[r], B.Standing(l.books, r), l.disabled);
    }
  }

  // ---------------------------------------------------------------- when a request succeeds

  // In a reachable lane, admission depends on the two lane fields alone: no run need be looked at.
  lemma AdmitsExactly(l: Lane, catalog: B.Catalog, run: RunId, a: Admission)
    requires Sound(l) && run !in l.runs
    ensures QueueRun(l, catalog, run, a).Some?
            <==> a.enabled && a.ready && a.profile in catalog && !l.disabled && l.active.None?
                 && B.Reserve(l.books, catalog, a.now, Protected(l),
                              B.Request(run, a.profile, catalog[a.profile].maxTokens.input,
                                        catalog[a.profile].maxTokens.output, Some(a.lease))).Ok?
  {
    hide B.Reserve, B.Standing, B.Balanced, Clean;
    if r :| r in l.runs && l.runs[r].disabled {
      RunAt(l, r);
    }
  }

  // A running run whose usage passed the client's check always settles: completion never fails for
  // a limit or a conflict.
  lemma CompletesExactly(l: Lane, run: RunId, usage: Usage, refusal: Option<Category>, revoked: bool)
    requires Sound(l) && run in l.runs && Covers(l.runs[run].model.maxTokens, usage.tokens)
    ensures B.Standing(l.books, run).Some? && (l.runs[run].status == Running ==> B.Priced(l.runs[run].model))
    ensures var r := l.runs[run];
            CompleteRun(l, run, usage, refusal, revoked).1 == Done
            <==> && r.status == Running && !l.disabled && !r.cancelRequested && r.capability == Live && refusal.None?
                 && revoked
                 && usage.cost == Cost(B.RatesOf(r.model), usage.tokens)
  {
    hide B.Balanced, B.Settle, Cost, Clean;
    var r := l.runs[run];
    RunAt(l, run);
    if r.status == Running {
      B.StandingSound(l.books, run);
      var i := B.Find(B.Rows(l.books.reservations), run).value;
      B.SettleAtLimits(l.books, i, usage.tokens.input, usage.tokens.output);
    }
  }

  // A sound lane grants a claim exactly to a queued run, while the lane is open and nothing speaks
  // against it; otherwise nothing changes.
  lemma ClaimsExactly(l: Lane, run: RunId, refusal: Option<Category>)
    requires Sound(l)
    ensures var (m, claim) := ClaimRun(l, run, refusal);
            && (claim == Granted <==>
                  run in l.runs && l.runs[run].status == Queued && !l.disabled && !l.runs[run].cancelRequested
                    && refusal.None?)
            && (claim == Redelivered <==> run in l.runs && l.runs[run].status == Running)
            && (claim != Granted ==> m == l)
  {
    hide B.Balanced, B.Standing, Clean;
    if run in l.runs {
      RunAt(l, run);
    }
  }

  // After a clean end the lane is free again; any failure on the way closes it.
  lemma FinishFrees(l: Lane, run: RunId, category: Category, billable: bool, cleanup: bool, revoked: bool,
                    accounted: bool)
    requires Sound(l) && run in l.runs && Active(l.runs[run])
    ensures var m := Finish(l, run, category, billable, cleanup, revoked, accounted);
            var clean := cleanup && revoked && (l.runs[run].status == Queued || billable);
            && m.active == None && run in m.runs && !Active(m.runs[run])
            && (!m.disabled <==> !l.disabled && clean && accounted)
            && m.runs[run].category == Some(if clean && l.runs[run].cancelRequested then CancelCategory else category)
            && m.runs[run].status == (if m.runs[run].category == Some(CancelCategory) then Cancelled else Failed)
            && m.runs[run].cancelRequested == l.runs[run].cancelRequested
            && m.runs[run].disabled == (l.runs[run].disabled || !clean || !accounted)
            && m.runs[run].capability == (if revoked && l.runs[run].capability == Live then Revoked
                                          else l.runs[run].capability)
            && B.Standing(l.books, run).Some?
            && (accounted ==>
                  var r := B.Standing(l.books, run).value;
                  B.Standing(m.books, run)
                  == Some(r.(status := if billable || l.runs[run].status == Running then B.Settled(r.estimate, r.cost)
                                       else B.Released)))
  {
    FinishCharges(l, run, category, billable, cleanup, revoked, accounted);
    hide B.Balanced, B.Standing, B.Charge, B.Release, Clean;
    RunAt(l, run);
  }

  // A run that may have started is charged in full, any other is released.
  lemma FinishCharges(l: Lane, run: RunId, category: Category, billable: bool, cleanup: bool, revoked: bool,
                      accounted: bool)
    requires Sound(l) && run in l.runs && Active(l.runs[run])
    ensures var m := Finish(l, run, category, billable, cleanup, revoked, accounted);
            && B.Standing(l.books, run).Some?
            && (accounted ==>
                  var r := B.Standing(l.books, run).value;
                  B.Standing(m.books, run)
                  == Some(r.(status := if billable || l.runs[run].status == Running then B.Settled(r.estimate, r.cost)
                                       else B.Released)))
  {
    hide B.Balanced, B.Standing, B.Charge, B.Release, Clean;
    RunAt(l, run);
    Closed(l.books, run, billable || l.runs[run].status == Running, accounted);
  }

  // Cancelling ends a queued run at once, free of charge, and only marks a running one; the first
  // request counts, and the lane is closed exactly if revoking or accounting fails.
  lemma CancelEffects(l: Lane, run: RunId, revoked: bool, accounted: bool)
    requires Sound(l) && run in l.runs && Active(l.runs[run]) && !l.runs[run].cancelRequested
    ensures var m := CancelRun(l, run, revoked, accounted);
            && run in m.runs && m.runs[run].cancelRequested
            && m.runs[run].disabled == (l.runs[run].disabled || !revoked
                                        || (l.runs[run].status == Queued && !accounted))
            && m.runs[run].capability == (if revoked && l.runs[run].capability == Live then Revoked
                                          else l.runs[run].capability)
            && (l.runs[run].status == Running ==>
                  m.active == Some(run) && m.runs[run].status == Running && m.books == l.books)
            && (l.runs[run].status == Queued ==>
                  && m.active == None && m.runs[run].status == Cancelled
                  && (accounted ==>
                        B.Standing(m.books, run).Some? && B.Standing(m.books, run).value.status == B.Released))
            && (!m.disabled <==> !l.disabled && revoked && (l.runs[run].status == Running || accounted))
            && CancelRun(m, run, revoked, accounted) == m
  {
    hide B.Balanced, B.Standing, B.Charge, B.Release, Clean;
    RunAt(l, run);
    Closed(l.books, run, false, accounted);
  }

  // A start is granted only to operators: a repeated one to its owner, and a new one if it can be queued;
  // its run is then the lane's, queued with a reservation at the limits of its model.
  lemma StartsExactly(l: Lane, catalog: B.Catalog, key: nat, owner: Owner, operator: bool, run: RunId, a: Admission)
    requires Sound(l) && B.Standing(l.books, run).None?
    ensures var r := StartRun(l, catalog, key, owner, operator, run, a);
            && (!operator ==> r == Err(Denied))
            && (operator && key in l.receipts ==>
                  r == if l.receipts[key].owner == owner then Ok((l, l.receipts[key].run)) else Err(Conflicting))
            && (operator && key !in l.receipts ==>
                  && (r.Ok? <==> QueueRun(l, catalog, run, a).Some?) && (r.Err? ==> r.error == Denied)
                  && (r.Ok? ==>
                        var (m, given) := r.value;
                        && given == run && m.active == Some(run) && !m.disabled && run !in l.runs
                        && a.profile in catalog
                        && m.receipts == l.receipts[key := Receipt(owner, run)]
                        && m.runs.Keys == l.runs.Keys + {run} && m.runs[run].status == Queued
                        && m.runs[run].model == catalog[a.profile] && !m.runs[run].cancelRequested
                        && B.Standing(m.books, run).Some?
                        && B.Standing(m.books, run).value.estimate == catalog[a.profile].maxTokens))
  {
    hide B.Reserve, B.Balanced;
    RunsStand(l);
    if operator && key !in l.receipts && QueueRun(l, catalog, run, a).Some? {
      var model := catalog[a.profile];
      var q := B.Request(run, a.profile, model.maxTokens.input, model.maxTokens.output, Some(a.lease));
      B.Reserves(l.books, catalog, a.now, Protected(l), q);
    }
  }

  // The same request gets the same run, and changes nothing.
  lemma StartReplays(l: Lane, catalog: B.Catalog, key: nat, owner: Owner, run: RunId, a: Admission,
                     later: Lane, owner': Owner, run': RunId, a': Admission)
    requires StartRun(l, catalog, key, owner, true, run, a).Ok?
             && Grows(StartRun(l, catalog, key, owner, true, run, a).value.0, later)
    ensures StartRun(later, catalog, key, owner', true, run', a')
            == if owner' == owner then Ok((later, StartRun(l, catalog, key, owner, true, run, a).value.1))
               else Err(Conflicting)
  {
    hide QueueRun, B.Standing;
    var m := StartRun(l, catalog, key, owner, true, run, a).value.0;
    assert key in m.receipts;
  }

  // Finishing and cancelling change the row of one active run, and let none succeed.
  lemma FinishEnds(l: Lane, run: RunId, category: Category, billable: bool, cleanup: bool, revoked: bool,
                   accounted: bool)
    ensures var m := Finish(l, run, category, billable, cleanup, revoked, accounted);
            && (run !in l.runs || !Active(l.runs[run]) ==> m == l)
            && (run in l.runs && Active(l.runs[run]) ==>
                  && run in m.runs && m.runs == l.runs[run := m.runs[run]]
                  && (m.runs[run].status == Failed || m.runs[run].status == Cancelled))
  {
  }

  lemma CancelEnds(l: Lane, run: RunId, revoked: bool, accounted: bool)
    ensures var m := CancelRun(l, run, revoked, accounted);
            m == l || (run in l.runs && Active(l.runs[run]) && run in m.runs && m.runs == l.runs[run := m.runs[run]]
                       && m.runs[run].status != Succeeded
                       && (l.runs[run].status == Running ==> m.active == l.active))
  {
  }

  lemma BooksBalanced(l: Lane)
    requires Sound(l)
    ensures B.Balanced(l.books)
  {
  }
}
