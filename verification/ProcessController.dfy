// The process controller: at most one child run, which ends retired or in quarantine.
module ProcessController {
  import opened Wrappers

  datatype RunState = Running | Succeeded | Failed | Cancelled

  // Digests of the request and of the scope token, and the result so far.
  datatype Record = Record(request: nat, scope: nat, result: RunState)

  // Child runs are numbered in the order they were started; `owner` is the run id of each. `retired`
  // remembers the ones whose retirement was safe.
  datatype State = State(limit: nat, active: Option<nat>, history: map<nat, Record>, hold: seq<nat>, quarantined: bool,
                         owner: seq<nat>, retired: set<nat>)

  // How starting a child went: nothing was created, it failed and was given up, safely or not, or it
  // is ready.
  datatype Launch = NothingStarted | LaunchFailed(safe: bool) | Ready

  // ---------------------------------------------------------------- operations under the lock

  // Child `id` is given up: retired if that was safe, as `r` says, or held in quarantine.
  function GiveUp(s: State, id: nat, r: bool): State {
    if r then s.(retired := s.retired + {id}) else s.(quarantined := true, hold := s.hold + [id])
  }

  // The active child is given up, and its run gets the state, or failed if that was not safe.
  function End(s: State, r: bool, result: RunState): State
    requires s.active.Some? && s.active.value < |s.owner| && s.owner[s.active.value] in s.history
  {
    var run := s.owner[s.active.value];
    GiveUp(s, s.active.value, r).(active := None,
                                  history := s.history[run := s.history[run].(result := if r then result else Failed)])
  }

  predicate Owns(s: State, run: nat) {
    s.active.Some? && s.active.value < |s.owner| && s.owner[s.active.value] == run && run in s.history
  }

  // `exited` and `expired` are what the poll finds; a clean exit proves nothing.
  function Status(s: State, run: nat, exited: bool, expired: bool, r: bool): (State, Option<RunState>) {
    if run !in s.history then (s, None)
    else if !Owns(s, run) then (s, Some(s.history[run].result))
    else if !exited && !expired then (s, Some(Running))
    else
      var m := End(s, r, if exited then Failed else Cancelled);
      (m, Some(m.history[run].result))
  }

  function Stop(s: State, run: nat, r: bool): (State, Option<RunState>) {
    if run !in s.history then (s, None)
    else if !Owns(s, run) then (s, Some(s.history[run].result))
    else
      var m := End(s, r, Cancelled);
      (m, Some(m.history[run].result))
  }

  // Whether the run was ended here, and safely.
  function Finish(s: State, run: nat, result: RunState, r: bool): (State, bool) {
    if run !in s.history || !Owns(s, run) then (s, false) else (End(s, r, result), r)
  }

  function Admit(s: State, run: nat, request: nat, scope: nat, launch: Launch,
                 exited: bool, expired: bool, r: bool): (State, Option<RunState>) {
    if run in s.history then
      if s.history[run].request != request || s.history[run].scope != scope then (s, None)
      else if s.active.None? then (s, Some(s.history[run].result))
      else Status(s, run, exited, expired, r)
    else if s.quarantined || s.active.Some? || |s.history| >= s.limit then (s, None)
    else
      match launch
      case NothingStarted => (s, None)
      case LaunchFailed(safe) => (GiveUp(s.(owner := s.owner + [run]), |s.owner|, safe), None)
      case Ready =>
        (s.(owner := s.owner + [run], active := Some(|s.owner|),
            history := s.history[run := Record(request, scope, Running)]),
         Some(Running))
  }

  // ---------------------------------------------------------------- executions around them

  // A thread in execute: it took the active child, its finish was safe, or it has returned a result.
  datatype Thread = Polling(run: nat, child: nat) | Finished(run: nat, child: nat) | Returned(run: nat, child: nat)

  datatype World = World(state: State, threads: map<nat, Thread>)

  datatype Step =
    | AdmitStep(run: nat, request: nat, scope: nat, launch: Launch, exited: bool, expired: bool, r: bool)
    | StatusStep(run: nat, exited: bool, expired: bool, r: bool)
    | StopStep(run: nat, r: bool)
    | TakeStep(thread: nat, run: nat)
    | FinishStep(thread: nat, result: RunState, r: bool)
    | ReturnStep(thread: nat, r: bool)
    | RaiseStep(thread: nat, r: bool)

  function Next(w: World, s: Step): World {
    match s
    case AdmitStep(run, request, scope, launch, exited, expired, r) =>
      w.(state := Admit(w.state, run, request, scope, launch, exited, expired, r).0)
    case StatusStep(run, exited, expired, r) => w.(state := Status(w.state, run, exited, expired, r).0)
    case StopStep(run, r) => w.(state := Stop(w.state, run, r).0)
    case TakeStep(thread, run) =>
      if thread !in w.threads && Owns(w.state, run)
      then w.(threads := w.threads[thread := Polling(run, w.state.active.value)])
      else w
    case FinishStep(thread, result, r) =>
      if thread in w.threads && w.threads[thread].Polling? then
        var t := w.threads[thread];
        var (m, safe) := Finish(w.state, t.run, result, r);
        World(m, if safe then w.threads[thread := Finished(t.run, t.child)] else w.threads)
      else w
    case ReturnStep(thread, r) =>
      // The last stop raises if it finds the run failed and the controller in quarantine.
      if thread in w.threads && w.threads[thread].Finished? then
        var t := w.threads[thread];
        var (m, result) := Stop(w.state, t.run, r);
        World(m,
              if result == Some(Failed) && m.quarantined then w.threads - {thread}
              else w.threads[thread := Returned(t.run, t.child)])
      else w
    case RaiseStep(thread, r) =>
      if thread in w.threads && w.threads[thread].Polling? then
        World(Stop(w.state, w.threads[thread].run, r).0, w.threads - {thread})
      else w
  }

  function Run(w: World, steps: seq<Step>): World {
    if steps == [] then w else Next(Run(w, steps[..|steps| - 1]), steps[|steps| - 1])
  }

  function Init(limit: nat): World {
    World(State(limit, None, map[], [], false, [], {}), map[])
  }

  // ---------------------------------------------------------------- the invariant

  predicate Held(s: State, id: nat) {
    id in s.hold
  }

  // Every child that was ever started is exactly one of active, safely retired, or held.
  predicate Conserved(s: State) {
    && (forall id | 0 <= id < |s.owner| ::
          if s.active == Some(id) then id !in s.retired && !Held(s, id) else id in s.retired <==> !Held(s, id))
    && (forall id | id in s.retired :: id < |s.owner|)
    && (forall i | 0 <= i < |s.hold| :: s.hold[i] < |s.owner|)
    && (forall i, j | 0 <= i < j < |s.hold| :: s.hold[i] != s.hold[j])
    && (s.active.Some? ==> s.active.value < |s.owner|)
  }

  // The controller is in quarantine exactly while it holds a child. A run of the history has one
  // child at most that was ever active.
  predicate Sound(s: State) {
    && Conserved(s)
    && (s.quarantined <==> s.hold != []) && |s.hold| <= 1 && (s.quarantined ==> s.active.None?)
    && (forall i | 0 <= i < |s.hold| && s.owner[s.hold[i]] in s.history ::
          s.history[s.owner[s.hold[i]]].result == Failed)
    && (s.active.Some? ==> s.owner[s.active.value] in s.history && s.history[s.owner[s.active.value]].result == Running)
    && (forall run | run in s.history && s.history[run].result == Running :: Owns(s, run))
    && |s.history| <= s.limit
  }

  predicate ThreadOk(s: State, t: Thread) {
    && t.child < |s.owner| && s.owner[t.child] == t.run && t.run in s.history
    && (t.Polling? && Owns(s, t.run) ==> s.active == Some(t.child))
    && (!t.Polling? ==> t.child in s.retired && s.active != Some(t.child) && s.history[t.run].result != Running)
  }

  predicate WorldOk(w: World) {
    Sound(w.state) && forall i | i in w.threads :: ThreadOk(w.state, w.threads[i])
  }

  // What no operation undoes: a start, a retirement, a quarantine; and in quarantine nothing starts.
  predicate Extends(s: State, m: State) {
    && s.owner <= m.owner && s.retired <= m.retired && s.hold <= m.hold
    && (forall run | run in s.history ::
          run in m.history && (s.history[run].result != Running ==> m.history[run] == s.history[run]))
    && (s.quarantined ==> m.quarantined && m.owner == s.owner)
    && (m.active.Some? ==>
          m.active == s.active
            || (m.active.value >= |s.owner| && m.owner[|s.owner|..] != [] && m.owner[|s.owner|] !in s.history))
    && |m.owner| <= |s.owner| + 1
  }

  lemma ExtendsSelf(s: State)
    requires Conserved(s)
    ensures Extends(s, s)
  {
  }

  lemma GiveUpConserved(s: State, r: bool)
    requires Conserved(s) && s.active.Some?
    ensures Conserved(GiveUp(s, s.active.value, r).(active := None))
  {
    var id := s.active.value;
    var m := GiveUp(s, id, r).(active := None);
    assert forall i | 0 <= i < |s.hold| :: Held(s, s.hold[i]);
    forall k | 0 <= k < |m.owner| ensures k in m.retired <==> !Held(m, k) {
      assert Held(m, k) <==> Held(s, k) || (k == id && !r);
    }
  }

  lemma EndSound(s: State, r: bool, result: RunState)
    requires Sound(s) && s.active.Some? && result != Running
    ensures s.active.value < |s.owner| && s.owner[s.active.value] in s.history
    ensures var m := End(s, r, result);
            && Sound(m) && Extends(s, m) && m.active.None? && (r ==> s.active.value in m.retired)
  {
    hide Conserved;
    ActiveKnown(s);
    GiveUpConserved(s, r);
    var run := s.owner[s.active.value];
    var m := End(s, r, result);
    ConservedOther(GiveUp(s, s.active.value, r).(active := None), m);
    assert m.history.Keys == s.history.Keys;
    assert |m.history.Keys| == |m.history|;
  }

  lemma ActiveKnown(s: State)
    requires Conserved(s)
    ensures s.active.Some? ==> s.active.value < |s.owner|
  {
  }

  lemma ConservedOther(s: State, m: State)
    requires Conserved(s) && m.owner == s.owner && m.retired == s.retired && m.hold == s.hold && m.active == s.active
    ensures Conserved(m)
  {
  }

  // A child starts: it is active, or its launch failed and it is given up at once.
  lemma StartConserved(s: State, run: nat)
    requires Conserved(s) && s.active.None?
    ensures Conserved(s.(owner := s.owner + [run], active := Some(|s.owner|)))
  {
    var m := s.(owner := s.owner + [run], active := Some(|s.owner|));
    assert !Held(s, |s.owner|);
    forall k | 0 <= k < |s.owner| ensures k in m.retired <==> !Held(m, k) {
      assert Held(m, k) <==> Held(s, k);
    }
  }

  lemma AdmitSound(s: State, run: nat, request: nat, scope: nat, launch: Launch, exited: bool, expired: bool, r: bool)
    requires Sound(s)
    ensures var m := Admit(s, run, request, scope, launch, exited, expired, r).0; Sound(m) && Extends(s, m)
  {
    hide Conserved;
    ExtendsSelf(s);
    var m := Admit(s, run, request, scope, launch, exited, expired, r).0;
    if run in s.history {
      StatusSound(s, run, exited, expired, r);
    } else if m != s {
      var started := s.(owner := s.owner + [run], active := Some(|s.owner|));
      StartConserved(s, run);
      if launch.Ready? {
        ConservedOther(started, m);
        assert |m.history| == |s.history| + 1;
      } else {
        GiveUpConserved(started, launch.safe);
        ConservedOther(GiveUp(started, |s.owner|, launch.safe).(active := None), m);
      }
    }
  }

  lemma StatusSound(s: State, run: nat, exited: bool, expired: bool, r: bool)
    requires Sound(s)
    ensures var m := Status(s, run, exited, expired, r).0; Sound(m) && Extends(s, m)
  {
    hide Sound, Extends, Conserved;
    StateKnown(s);
    if Owns(s, run) && (exited || expired) {
      EndSound(s, r, if exited then Failed else Cancelled);
    }
  }

  lemma StateKnown(s: State)
    requires Sound(s)
    ensures Extends(s, s)
  {
  }

  lemma StopSound(s: State, run: nat, r: bool)
    requires Sound(s)
    ensures var m := Stop(s, run, r).0; Sound(m) && Extends(s, m)
  {
    hide Sound, Extends, Conserved;
    StateKnown(s);
    if Owns(s, run) {
      EndSound(s, r, Cancelled);
    }
  }

  lemma FinishSound(s: State, run: nat, result: RunState, r: bool)
    requires Sound(s) && result != Running
    ensures var (m, safe) := Finish(s, run, result, r);
            Sound(m) && Extends(s, m) && (safe ==> s.active.Some? && s.active.value in m.retired && m.active.None?)
  {
    hide Sound, Extends, Conserved;
    StateKnown(s);
    if Owns(s, run) {
      EndSound(s, r, result);
    }
  }

  lemma ThreadStays(s: State, m: State, t: Thread)
    requires Sound(s) && Sound(m) && Extends(s, m) && ThreadOk(s, t)
    ensures ThreadOk(m, t)
  {
    assert m.owner[t.child] == s.owner[t.child];
    if m.active.Some? && m.active != s.active {
      assert m.owner[|s.owner|] !in s.history;
    }
  }

  // Only results a run can end with.
  predicate Proper(step: Step) {
    step.FinishStep? ==> step.result != Running
  }

  lemma NextOk(w: World, step: Step)
    requires WorldOk(w) && Proper(step)
    ensures WorldOk(Next(w, step)) && Extends(w.state, Next(w, step).state)
  {
    hide Sound, Extends, ThreadOk, Admit, Status, Stop, Finish, Owns;
    var s, m := w.state, Next(w, step);
    StateKnown(s);
    match step {
      case AdmitStep(run, request, scope, launch, exited, expired, r) =>
        AdmitSound(s, run, request, scope, launch, exited, expired, r);
      case StatusStep(run, exited, expired, r) => StatusSound(s, run, exited, expired, r);
      case StopStep(run, r) => StopSound(s, run, r);
      case TakeStep(thread, run) =>
        if thread !in w.threads && Owns(s, run) {
          Taken(s, run);
        }
      case FinishStep(thread, result, r) =>
        if thread in w.threads && w.threads[thread].Polling? {
          FinishSound(s, w.threads[thread].run, result, r);
        }
      case ReturnStep(thread, r) =>
        if thread in w.threads && w.threads[thread].Finished? {
          StopSound(s, w.threads[thread].run, r);
        }
      case RaiseStep(thread, r) =>
        if thread in w.threads && w.threads[thread].Polling? {
          StopSound(s, w.threads[thread].run, r);
        }
    }
    forall i | i in m.threads ensures ThreadOk(m.state, m.threads[i]) {
      if i in w.threads {
        ThreadStays(s, m.state, w.threads[i]);
        if m.threads[i] != w.threads[i] {
          Moved(s, m.state, w.threads[i], m.threads[i], step);
        }
      }
    }
  }

  lemma Taken(s: State, run: nat)
    requires Sound(s) && Owns(s, run)
    ensures ThreadOk(s, Polling(run, s.active.value))
  {
  }

  // A thread moves on only when its own child has been retired.
  lemma Moved(s: State, m: State, t: Thread, t': Thread, step: Step)
    requires Sound(s) && Sound(m) && ThreadOk(s, t) && ThreadOk(m, t) && t'.run == t.run && t'.child == t.child
             && !t'.Polling?
    requires !t.Polling? || (step.FinishStep? && (m, true) == Finish(s, t.run, step.result, step.r))
    ensures ThreadOk(m, t')
  {
  }

  lemma {:induction false} AlwaysOk(w: World, steps: seq<Step>)
    requires WorldOk(w) && forall s | s in steps :: Proper(s)
    ensures WorldOk(Run(w, steps))
  {
    hide WorldOk, Next;
    if steps != [] {
      AlwaysOk(w, steps[..|steps| - 1]);
      NextOk(Run(w, steps[..|steps| - 1]), steps[|steps| - 1]);
    }
  }

  lemma InitOk(limit: nat)
    ensures WorldOk(Init(limit))
  {
  }

  // In every reachable state each child ever started is exactly one of active, safely retired or
  // held in quarantine, and the controller is in quarantine exactly if it holds one.
  lemma ChildrenConserved(limit: nat, steps: seq<Step>)
    requires forall s | s in steps :: Proper(s)
    ensures var s := Run(Init(limit), steps).state; Conserved(s) && (s.quarantined <==> s.hold != [])
  {
    hide Next, Conserved;
    InitOk(limit);
    AlwaysOk(Init(limit), steps);
  }

  // A result is returned only after the run's child has been safely retired.
  lemma ReturnsRetired(limit: nat, steps: seq<Step>, thread: nat)
    requires forall s | s in steps :: Proper(s)
    requires thread in Run(Init(limit), steps).threads && Run(Init(limit), steps).threads[thread].Returned?
    ensures var w := Run(Init(limit), steps); w.threads[thread].child in w.state.retired
  {
    hide Next, Sound;
    InitOk(limit);
    AlwaysOk(Init(limit), steps);
    assert ThreadOk(Run(Init(limit), steps).state, Run(Init(limit), steps).threads[thread]);
  }

  // At most one child is ever held, and its run, if it was admitted, is reported as failed.
  lemma HeldFailed(limit: nat, steps: seq<Step>, i: nat)
    requires forall s | s in steps :: Proper(s)
    requires i < |Run(Init(limit), steps).state.hold|
    ensures var s := Run(Init(limit), steps).state;
            && i == 0 && s.active.None? && s.hold[i] < |s.owner|
            && (s.owner[s.hold[i]] in s.history ==> s.history[s.owner[s.hold[i]]].result == Failed)
  {
    hide Next;
    InitOk(limit);
    AlwaysOk(Init(limit), steps);
  }

  // A run that was admitted before starts nothing: the same request under the same scope gets its
  // result or its present state, any other is refused.
  lemma AdmitReplays(s: State, run: nat, request: nat, scope: nat, launch: Launch, exited: bool, expired: bool, r: bool)
    requires Sound(s) && run in s.history
    ensures var (m, result) := Admit(s, run, request, scope, launch, exited, expired, r);
            var same := s.history[run].request == request && s.history[run].scope == scope;
            && m.owner == s.owner && run in m.history && m.history[run].request == s.history[run].request
            && m.history[run].scope == s.history[run].scope
            && (if same then result == Some(m.history[run].result) else result == None && m == s)
  {
    hide Conserved;
  }

  // Quarantine is permanent: from then on no child is started, and what was retired stays retired.
  lemma {:induction false} QuarantinePermanent(w: World, steps: seq<Step>)
    requires WorldOk(w) && w.state.quarantined && forall s | s in steps :: Proper(s)
    ensures var m := Run(w, steps).state;
            m.quarantined && m.owner == w.state.owner && w.state.retired <= m.retired && w.state.hold <= m.hold
  {
    hide WorldOk, Next;
    if steps != [] {
      QuarantinePermanent(w, steps[..|steps| - 1]);
      AlwaysOk(w, steps[..|steps| - 1]);
      NextOk(Run(w, steps[..|steps| - 1]), steps[|steps| - 1]);
    }
  }

  // ---------------------------------------------------------------- what an ended run reads

  // This step ends the run's child, and the run reads this result for it: failed if the child is not
  // safely retired or has exited by itself, cancelled if it was stopped or timed out, and otherwise what
  // the thread that polled it came to.
  predicate EndsAs(w: World, step: Step, run: nat, result: RunState) {
    && Owns(w.state, run)
    && match step
       case AdmitStep(other, request, scope, _, exited, expired, r) =>
         && other == run && w.state.history[run].request == request && w.state.history[run].scope == scope
         && ((exited && result == Failed) || (!exited && expired && result == if r then Cancelled else Failed))
       case StatusStep(other, exited, expired, r) =>
         && other == run
         && ((exited && result == Failed) || (!exited && expired && result == if r then Cancelled else Failed))
       case StopStep(other, r) => other == run && result == if r then Cancelled else Failed
       case TakeStep(_, _) => false
       case FinishStep(thread, found, r) =>
         && thread in w.threads && w.threads[thread] == Polling(run, w.state.active.value)
         && result == if r then found else Failed
       case ReturnStep(_, _) => false
       case RaiseStep(thread, r) =>
         && thread in w.threads && w.threads[thread] == Polling(run, w.state.active.value)
         && result == if r then Cancelled else Failed
  }

  // One step gives a run a result exactly if it ends it so, and no step changes a result.
  lemma NextResult(w: World, step: Step, run: nat, result: RunState)
    requires WorldOk(w) && Proper(step) && result != Running
    ensures var s, m := w.state, Next(w, step).state;
            (run in m.history && m.history[run].result == result)
            <==> (run in s.history && s.history[run].result == result) || EndsAs(w, step, run, result)
  {
    hide Conserved, Extends, End, Sound, Admit, Status, Stop, Finish;
    SoundRuns(w.state);
    match step {
      case AdmitStep(other, request, scope, launch, exited, expired, r) =>
        AdmitResult(w.state, other, request, scope, launch, exited, expired, r, run, result);
      case StatusStep(other, exited, expired, r) => StatusResult(w.state, other, exited, expired, r, run, result);
      case StopStep(other, r) => StopResult(w.state, other, r, run, result);
      case TakeStep(_, _) =>
      case FinishStep(thread, found, r) =>
        if thread in w.threads {
          assert ThreadOk(w.state, w.threads[thread]);
          FinishResult(w.state, w.threads[thread].run, found, r, run, result);
        }
      case ReturnStep(thread, r) =>
        if thread in w.threads {
          assert ThreadOk(w.state, w.threads[thread]);
          StopResult(w.state, w.threads[thread].run, r, run, result);
        }
      case RaiseStep(thread, r) =>
        if thread in w.threads {
          assert ThreadOk(w.state, w.threads[thread]);
          StopResult(w.state, w.threads[thread].run, r, run, result);
        }
    }
  }

  // The run reads this result.
  predicate Reads(s: State, run: nat, result: RunState) {
    run in s.history && s.history[run].result == result
  }

  lemma StatusResult(s: State, other: nat, exited: bool, expired: bool, r: bool, run: nat, result: RunState)
    requires Sound(s) && result != Running
    ensures var ended := if exited || !r then Failed else Cancelled;
            Reads(Status(s, other, exited, expired, r).0, run, result)
            <==> Reads(s, run, result) || (Owns(s, run) && other == run && (exited || expired) && result == ended)
  {
    hide Sound, End;
    EndResult(s, r, if exited then Failed else Cancelled, run, result);
  }

  lemma StopResult(s: State, other: nat, r: bool, run: nat, result: RunState)
    requires Sound(s) && result != Running
    ensures Reads(Stop(s, other, r).0, run, result)
            <==> Reads(s, run, result) || (Owns(s, run) && other == run && result == if r then Cancelled else Failed)
  {
    hide Sound, End;
    EndResult(s, r, Cancelled, run, result);
  }

  lemma FinishResult(s: State, other: nat, found: RunState, r: bool, run: nat, result: RunState)
    requires Sound(s) && result != Running
    ensures Reads(Finish(s, other, found, r).0, run, result)
            <==> Reads(s, run, result) || (Owns(s, run) && other == run && result == if r then found else Failed)
  {
    hide Sound, End;
    EndResult(s, r, found, run, result);
  }

  lemma AdmitResult(s: State, other: nat, request: nat, scope: nat, launch: Launch, exited: bool, expired: bool,
                    r: bool, run: nat, result: RunState)
    requires Sound(s) && result != Running
    ensures var ended := if exited || !r then Failed else Cancelled;
            Reads(Admit(s, other, request, scope, launch, exited, expired, r).0, run, result)
            <==> || Reads(s, run, result)
                 || (&& Owns(s, run) && other == run && (exited || expired) && result == ended
                     && s.history[run].request == request && s.history[run].scope == scope)
  {
    hide Sound, Status;
    StatusResult(s, other, exited, expired, r, run, result);
  }

  lemma EndResult(s: State, r: bool, found: RunState, run: nat, result: RunState)
    requires Sound(s) && result != Running
    ensures s.active.Some? ==>
              && s.active.value < |s.owner| && s.owner[s.active.value] in s.history
              && var m := End(s, r, found);
                 (run in m.history && m.history[run].result == result)
                 <==> || (run in s.history && s.history[run].result == result)
                      || (Owns(s, run) && result == if r then found else Failed)
  {
    hide Conserved;
    ActiveKnown(s);
  }

  lemma SoundRuns(s: State)
    requires Sound(s)
    ensures forall run | run in s.history :: Owns(s, run) <==> s.history[run].result == Running
  {
    hide Conserved;
  }

  predicate EndedAs(w: World, steps: seq<Step>, run: nat, result: RunState) {
    exists i | 0 <= i < |steps| :: EndsAs(Run(w, steps[..i]), steps[i], run, result)
  }

  lemma EndedMore(w: World, steps: seq<Step>, run: nat, result: RunState)
    requires steps != []
    ensures var front := steps[..|steps| - 1];
            EndedAs(w, steps, run, result)
            <==> EndedAs(w, front, run, result) || EndsAs(Run(w, front), steps[|steps| - 1], run, result)
  {
    hide EndsAs, Run;
    var front := steps[..|steps| - 1];
    forall i | 0 <= i < |front| ensures front[..i] == steps[..i] && front[i] == steps[i] {
    }
  }

  // In every run of the controller an admitted run reads a result exactly if one of the steps ended it
  // so: it reads succeeded only if the thread that polled its child came to that, and the child was
  // then safely retired.
  lemma {:induction false} ResultExactly(limit: nat, steps: seq<Step>, run: nat, result: RunState)
    requires result != Running && forall s | s in steps :: Proper(s)
    ensures var s := Run(Init(limit), steps).state;
            (run in s.history && s.history[run].result == result) <==> EndedAs(Init(limit), steps, run, result)
  {
    hide WorldOk, Next, EndsAs, EndedAs;
    if steps != [] {
      var front := steps[..|steps| - 1];
      ResultExactly(limit, front, run, result);
      EndedMore(Init(limit), steps, run, result);
      InitOk(limit);
      AlwaysOk(Init(limit), front);
      NextResult(Run(Init(limit), front), steps[|steps| - 1], run, result);
    } else {
      NothingEnded(limit, run, result);
    }
  }

  lemma NothingEnded(limit: nat, run: nat, result: RunState)
    ensures !EndedAs(Init(limit), [], run, result)
  {
  }

  // A result is final, and so is what a run was admitted with.
  lemma {:induction false} ResultFinal(w: World, steps: seq<Step>, run: nat)
    requires WorldOk(w) && run in w.state.history && forall s | s in steps :: Proper(s)
    ensures var m := Run(w, steps).state;
            && run in m.history && m.history[run].request == w.state.history[run].request
            && m.history[run].scope == w.state.history[run].scope
            && (w.state.history[run].result != Running ==> m.history[run] == w.state.history[run])
  {
    hide WorldOk, Next;
    if steps != [] {
      var before := Run(w, steps[..|steps| - 1]);
      ResultFinal(w, steps[..|steps| - 1], run);
      AlwaysOk(w, steps[..|steps| - 1]);
      NextKeeps(before, steps[|steps| - 1], run);
    }
  }

  lemma NextKeeps(w: World, step: Step, run: nat)
    requires WorldOk(w) && run in w.state.history
    ensures var m := Next(w, step).state;
            && run in m.history && m.history[run].request == w.state.history[run].request
            && m.history[run].scope == w.state.history[run].scope
            && (w.state.history[run].result != Running ==> m.history[run] == w.state.history[run])
  {
    hide Conserved, Extends, ThreadOk;
  }

  // A status or a stop answers what the run reads from then on.
  lemma AnswersRead(s: State, run: nat, exited: bool, expired: bool, r: bool)
    requires Sound(s)
    ensures var (m, answer) := Status(s, run, exited, expired, r);
            answer == if run in m.history then Some(m.history[run].result) else None
    ensures var (m, answer) := Stop(s, run, r);
            && answer == (if run in m.history then Some(m.history[run].result) else None)
            && (run in m.history ==> m.history[run].result != Running)
  {
    hide Conserved;
  }

  // A new run starts exactly if the controller is open and idle, has room, and the child gets ready.
  lemma StartsExactly(s: State, run: nat, request: nat, scope: nat, launch: Launch, exited: bool, expired: bool,
                      r: bool)
    requires Sound(s) && run !in s.history
    ensures var (m, answer) := Admit(s, run, request, scope, launch, exited, expired, r);
            var starts := !s.quarantined && s.active.None? && |s.history| < s.limit;
            && (answer == Some(Running) <==> starts && launch == Ready) && (answer.Some? ==> answer == Some(Running))
            && (if answer.Some?
                then Owns(m, run) && m.history == s.history[run := Record(request, scope, Running)]
                else m.history == s.history && m.active == s.active)
            && (m.quarantined <==> s.quarantined || (starts && launch == LaunchFailed(false)))
  {
    hide Conserved;
  }

  // The last stop of a thread whose child is retired changes nothing: its result is returned, unless its
  // run reads failed and the controller has come into quarantine since.
  lemma ReturnsExactly(w: World, thread: nat, r: bool)
    requires WorldOk(w) && thread in w.threads && w.threads[thread].Finished?
    ensures var t, m := w.threads[thread], Next(w, ReturnStep(thread, r));
            && m.state == w.state && t.run in w.state.history
            && m.threads == if w.state.history[t.run].result == Failed && w.state.quarantined then w.threads - {thread}
                            else w.threads[thread := Returned(t.run, t.child)]
  {
    hide Conserved;
    assert ThreadOk(w.state, w.threads[thread]);
    SoundRuns(w.state);
  }

  // An execution that nobody disturbs: a new run is admitted, its thread takes the child, finishes with a
  // result, and returns it; the controller is idle again.
  lemma ExecutesThrough(w: World, thread: nat, run: nat, request: nat, scope: nat, result: RunState,
                        exited: bool, expired: bool, r: bool)
    requires WorldOk(w) && thread !in w.threads && run !in w.state.history && result != Running
    requires !w.state.quarantined && w.state.active.None? && |w.state.history| < w.state.limit
    ensures var admitted := Next(w, AdmitStep(run, request, scope, Ready, exited, expired, r));
            var finished := Next(Next(admitted, TakeStep(thread, run)), FinishStep(thread, result, true));
            var m := Next(finished, ReturnStep(thread, r));
            && m.state.active.None? && !m.state.quarantined && m.state.retired == w.state.retired + {|w.state.owner|}
            && m.state.owner == w.state.owner + [run]
            && m.state.history == w.state.history[run := Record(request, scope, result)]
            && m.threads == w.threads[thread := Returned(run, |w.state.owner|)]
  {
    hide Conserved;
    var admitted := Next(w, AdmitStep(run, request, scope, Ready, exited, expired, r));
    assert admitted.state.owner[|w.state.owner|] == run;
  }

  // ---------------------------------------------------------------- retiring a child

  // What the controller owns of a child, and whether it has a transport to revoke at.
  datatype Parts = Parts(bridge: bool, child: bool, home: bool, transport: bool)

  datatype Effect = CloseApi | CloseBridge | Poll | Terminate | AwaitTerminated | Kill | AwaitKilled
                  | DrainBridge | ShutBridge | DrainApi | RevokeScope | RemoveHome

  // A poll that finds the child still running is Negative, and so is a drain or a close that says no.
  datatype Outcome = Worked | Negative | Raised

  type Outcomes = Effect -> Outcome

  function Rank(e: Effect): nat {
    match e
    case CloseApi => 0 case CloseBridge => 1 case Poll => 2 case Terminate => 3 case AwaitTerminated => 4 case Kill => 5
    case AwaitKilled => 6 case DrainBridge => 7 case ShutBridge => 8 case DrainApi => 9 case RevokeScope => 10
    case RemoveHome => 11
  }

  predicate TerminateFailed(o: Outcomes) {
    o(Poll) == Negative && (o(Terminate) != Worked || o(AwaitTerminated) != Worked)
  }

  // The child had exited, or could be terminated, or could be killed.
  predicate ChildGone(o: Outcomes) {
    o(Poll) == Worked
      || (o(Poll) == Negative && (!TerminateFailed(o) || (o(Kill) == Worked && o(AwaitKilled) == Worked)))
  }

  // Everything but the home is known to be gone.
  predicate AllGone(parts: Parts, o: Outcomes) {
    && (parts.bridge ==> o(CloseBridge) == Worked && o(DrainBridge) == Worked && o(ShutBridge) == Worked)
    && (parts.child ==> ChildGone(o))
    && o(DrainApi) == Worked
    && (parts.transport ==> o(RevokeScope) == Worked)
  }

  predicate Safe(parts: Parts, o: Outcomes) {
    AllGone(parts, o) && (parts.home ==> o(RemoveHome) == Worked)
  }

  // The effects are in this order, each at most once, and all before rank n.
  predicate InOrder(trace: seq<Effect>, n: nat) {
    && (forall e | e in trace :: Rank(e) < n)
    && (forall i, j | 0 <= i < j < |trace| :: Rank(trace[i]) < Rank(trace[j]))
  }

  method Do(trace: seq<Effect>, e: Effect) returns (more: seq<Effect>)
    requires InOrder(trace, Rank(e))
    ensures InOrder(more, Rank(e) + 1)
    ensures forall f :: f in more <==> f in trace || f == e
  {
    return trace + [e];
  }

  lemma OrderIs(trace: seq<Effect>, m: nat)
    ensures trace == [] ==> InOrder(trace, m)
    ensures forall n: nat | n <= m && InOrder(trace, n) :: InOrder(trace, m)
  {
  }

  // Ends the child: asked first, and killed only if that failed.
  method EndChild(o: Outcomes, before: seq<Effect>) returns (gone: bool, trace: seq<Effect>)
    requires InOrder(before, Rank(Poll))
    ensures gone == ChildGone(o)
    ensures InOrder(trace, Rank(DrainBridge))
    ensures forall e | Rank(e) < Rank(Poll) || Rank(AwaitKilled) < Rank(e) :: e in trace <==> e in before
    ensures Poll in trace && (Terminate in trace <==> o(Poll) == Negative) && (Kill in trace <==> TerminateFailed(o))
  {
    hide InOrder;
    trace := Do(before, Poll);
    gone := o(Poll) == Worked;
    if o(Poll) == Negative {
      trace := Do(trace, Terminate);
      if o(Terminate) == Worked {
        trace := Do(trace, AwaitTerminated);
        gone := o(AwaitTerminated) == Worked;
      }
      OrderIs(trace, Rank(Kill));
      if !gone {
        trace := Do(trace, Kill);
        if o(Kill) == Worked {
          trace := Do(trace, AwaitKilled);
          gone := o(AwaitKilled) == Worked;
        }
      }
    }
    OrderIs(trace, Rank(DrainBridge));
  }

  // Drains and closes the bridge, unless draining it raises, and drains the child's own connections.
  method Drain(bridge: bool, o: Outcomes, before: seq<Effect>) returns (drained: bool, trace: seq<Effect>)
    requires InOrder(before, Rank(DrainBridge))
    ensures drained <==> (bridge ==> o(DrainBridge) == Worked && o(ShutBridge) == Worked) && o(DrainApi) == Worked
    ensures InOrder(trace, Rank(RevokeScope))
    ensures forall e | Rank(e) < Rank(DrainBridge) || Rank(DrainApi) < Rank(e) :: e in trace <==> e in before
    ensures DrainApi in trace && (bridge <==> DrainBridge in trace)
            && (ShutBridge in trace <==> bridge && o(DrainBridge) != Raised)
  {
    hide InOrder;
    NotYet(before, Rank(DrainBridge));
    drained, trace := true, before;
    if bridge {
      trace := Do(trace, DrainBridge);
      drained := o(DrainBridge) == Worked;
      if o(DrainBridge) != Raised {
        trace := Do(trace, ShutBridge);
        drained := o(ShutBridge) == Worked && drained;
      }
    }
    OrderIs(trace, Rank(DrainApi));
    trace := Do(trace, DrainApi);
    drained := o(DrainApi) == Worked && drained;
  }

  lemma NotYet(trace: seq<Effect>, n: nat)
    requires InOrder(trace, n)
    ensures forall e | n <= Rank(e) :: e !in trace
  {
  }

  // Retires a child. Whatever goes wrong, the other parts are still tried, in this order; the child is
  // killed only if it would not end, and its home is removed only when all else is known to be gone.
  method Retire(parts: Parts, o: Outcomes) returns (safe: bool, trace: seq<Effect>)
    ensures safe == Safe(parts, o)
    ensures InOrder(trace, Rank(RemoveHome) + 1)
    ensures CloseApi in trace && DrainApi in trace && (parts.transport <==> RevokeScope in trace)
    ensures (parts.bridge <==> CloseBridge in trace) && (parts.bridge <==> DrainBridge in trace)
    ensures ShutBridge in trace <==> parts.bridge && o(DrainBridge) != Raised
    ensures parts.child <==> Poll in trace
    ensures Kill in trace <==> parts.child && TerminateFailed(o)
    ensures RemoveHome in trace <==> parts.home && AllGone(parts, o)
  {
    hide InOrder, ChildGone, TerminateFailed;
    OrderIs([], 0);
    safe := true;
    trace := Do([], CloseApi);
    if parts.bridge {
      trace := Do(trace, CloseBridge);
      safe := o(CloseBridge) == Worked;
    }
    OrderIs(trace, Rank(Poll));
    if parts.child {
      var gone;
      gone, trace := EndChild(o, trace);
      safe := safe && gone;
    }
    OrderIs(trace, Rank(DrainBridge));
    var drained;
    drained, trace := Drain(parts.bridge, o, trace);
    safe := drained && safe;
    if parts.transport {
      trace := Do(trace, RevokeScope);
      safe := safe && o(RevokeScope) == Worked;
    }
    OrderIs(trace, Rank(RemoveHome));
    if safe && parts.home {
      trace := Do(trace, RemoveHome);
      safe := o(RemoveHome) == Worked;
    }
    OrderIs(trace, Rank(RemoveHome) + 1);
  }

  // ---------------------------------------------------------------- in place

  class Controller {
    const limit: nat
    var active: Option<nat>
    var history: map<nat, Record>
    var hold: seq<nat>
    var quarantined: bool
    var owner: seq<nat>
    ghost var retired: set<nat>

    ghost function Value(): State
      reads this
    {
      State(limit, active, history, hold, quarantined, owner, retired)
    }

    constructor (limit: nat)
      ensures Value() == Init(limit).state && Sound(Value())
    {
      this.limit := limit;
      active, history, hold, quarantined, owner, retired := None, map[], [], false, [], {};
    }

    method EndActive(run: nat, parts: Parts, o: Outcomes, result: RunState) returns (safe: bool)
      requires Sound(Value()) && Owns(Value(), run) && result != Running
      modifies this
      ensures Sound(Value()) && Value() == End(old(Value()), Safe(parts, o), result) && safe == Safe(parts, o)
    {
      hide Sound, Conserved;
      EndSound(Value(), Safe(parts, o), result);
      var done, _ := Retire(parts, o);
      safe := done;
      quarantined := quarantined || !safe;
      if safe {
        retired := retired + {active.value};
      } else {
        hold := hold + [active.value];
      }
      active := None;
      history := history[run := history[run].(result := if safe then result else Failed)];
    }

    method GetStatus(run: nat, exited: bool, expired: bool, parts: Parts, o: Outcomes)
      returns (status: Option<RunState>)
      requires Sound(Value())
      modifies this
      ensures Sound(Value()) && (Value(), status) == Status(old(Value()), run, exited, expired, Safe(parts, o))
    {
      hide Sound, Conserved;
      if run !in history {
        return None;
      }
      OwnsActive(Value(), run);
      if active.None? || owner[active.value] != run {
        return Some(history[run].result);
      }
      if !exited && !expired {
        return Some(Running);
      }
      var _ := EndActive(run, parts, o, if exited then Failed else Cancelled);
      return Some(history[run].result);
    }

    method StopRun(run: nat, parts: Parts, o: Outcomes) returns (status: Option<RunState>)
      requires Sound(Value())
      modifies this
      ensures Sound(Value()) && (Value(), status) == Stop(old(Value()), run, Safe(parts, o))
    {
      hide Sound, Conserved;
      if run !in history {
        return None;
      }
      OwnsActive(Value(), run);
      if active.None? || owner[active.value] != run {
        return Some(history[run].result);
      }
      var _ := EndActive(run, parts, o, Cancelled);
      return Some(history[run].result);
    }

    method FinishRun(run: nat, result: RunState, parts: Parts, o: Outcomes) returns (safe: bool)
      requires Sound(Value()) && result != Running
      modifies this
      ensures Sound(Value()) && (Value(), safe) == Finish(old(Value()), run, result, Safe(parts, o))
    {
      hide Sound, Conserved;
      OwnsActive(Value(), run);
      if run !in history || active.None? || owner[active.value] != run {
        return false;
      }
      safe := EndActive(run, parts, o, result);
    }

    method AdmitRun(run: nat, request: nat, scope: nat, launch: Launch, exited: bool, expired: bool, parts: Parts,
                    o: Outcomes)
      returns (status: Option<RunState>)
      requires Sound(Value()) && (launch.LaunchFailed? ==> launch.safe == Safe(parts, o))
      modifies this
      ensures Sound(Value())
              && (Value(), status) == Admit(old(Value()), run, request, scope, launch, exited, expired, Safe(parts, o))
    {
      hide Sound, Conserved;
      AdmitSound(Value(), run, request, scope, launch, exited, expired, Safe(parts, o));
      if run in history {
        if history[run].request != request || history[run].scope != scope {
          return None;
        }
        if active.None? {
          return Some(history[run].result);
        }
        status := GetStatus(run, exited, expired, parts, o);
        return;
      }
      if quarantined || active.Some? || |history| >= limit {
        return None;
      }
      match launch {
        case NothingStarted => return None;
        case LaunchFailed(_) =>
          var child := |owner|;
          owner := owner + [run];
          var safe, _ := Retire(parts, o);
          if safe {
            retired := retired + {child};
          } else {
            quarantined := true;
            hold := hold + [child];
          }
          return None;
        case Ready =>
          active := Some(|owner|);
          owner := owner + [run];
          history := history[run := Record(request, scope, Running)];
          return Some(Running);
      }
    }
  }

  lemma OwnsActive(s: State, run: nat)
    requires Sound(s)
    ensures s.active.Some? ==> s.active.value < |s.owner|
    ensures Owns(s, run) <==> s.active.Some? && s.owner[s.active.value] == run
  {
  }
}
