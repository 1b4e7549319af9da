// Revoking a scope while its requests may be in flight: one upstream slot, requests that register
// their socket before they send, and a revoke that is acknowledged only once nothing is left.
module ScopeIo {
  import opened Wrappers
  import R = ScopeRegistry

  // A request holds the slot from setting up to the end of its worker. It is registered for its
  // scope from Starting on; Closing is a worker that failed to attach and has yet to exit.
  datatype Phase = SettingUp | Starting | Connecting | Attached | Closing | Finished

  datatype Request = Request(token: Option<nat>, phase: Phase, cancelled: bool)

  // Where a revoke stands. `active` is the request it found registered for the scope.
  datatype Revoke =
    | Marked(token: nat, active: Option<nat>)
    | Cleared(token: nat, active: Option<nat>)
    | Acknowledged(token: nat)
    | Unavailable(token: nat)

  datatype Io = Io(slot: bool, scopeIo: map<nat, nat>, revoked: set<nat>, requests: map<nat, Request>)

  // `sends` lists the scopes of the requests that put bytes on the wire, in order.
  datatype Server = Server(io: Io, history: R.History, revokes: map<nat, Revoke>, sends: seq<Option<nat>>)

  predicate Working(q: Request) {
    q.phase != Finished
  }

  predicate Registered(q: Request) {
    q.phase != SettingUp && q.phase != Finished
  }

  // ---------------------------------------------------------------- critical sections

  function Acquire(io: Io, request: nat, token: Option<nat>): Io {
    if io.slot || request in io.requests then io
    else io.(slot := true, requests := io.requests[request := Request(token, SettingUp, false)])
  }

  // The slot is given back, the request is done and no longer registered.
  function Finish(io: Io, request: nat): Io
    requires request in io.requests
  {
    var q := io.requests[request];
    io.(slot := false, requests := io.requests[request := q.(phase := Finished)],
        scopeIo := if q.token.Some? then io.scopeIo - {q.token.value} else io.scopeIo)
  }

  function Admit(io: Io, request: nat): Io
    requires request in io.requests
  {
    var q := io.requests[request];
    if q.phase != SettingUp then io
    else if q.token.Some? && q.token.value in io.revoked then
      io.(slot := false, requests := io.requests[request := q.(phase := Finished)])
    else
      io.(requests := io.requests[request := q.(phase := Starting)],
          scopeIo := if q.token.Some? then io.scopeIo[q.token.value := request] else io.scopeIo)
  }

  function Cancel(io: Io, request: nat): Io
    requires request in io.requests
  {
    io.(requests := io.requests[request := io.requests[request].(cancelled := true)])
  }

  // None when the table of revoked scopes is full.
  function Mark(io: Io, token: nat, limit: nat): Option<(Io, Option<nat>)> {
    if token !in io.revoked && |io.revoked| >= limit then None
    else
      var marked := io.(revoked := io.revoked + {token});
      if token in io.scopeIo && io.scopeIo[token] in io.requests
      then Some((Cancel(marked, io.scopeIo[token]), Some(io.scopeIo[token])))
      else Some((marked, None))
  }

  // ---------------------------------------------------------------- the events, in any order

  datatype Step =
    | AcquireSlot(request: nat, token: Option<nat>)
    | Register(request: nat)
    | StartWorker(request: nat, started: bool)
    | Attach(request: nat, expired: bool)
    | Send(request: nat)
    | GiveUp(request: nat)
    | EndWorker(request: nat)
    | MarkScope(call: nat, scope: nat)
    | ClearScope(call: nat)
    | Conclude(call: nat)
    | Authority(step: R.Step)

  function Advance(io: Io, request: nat, phase: Phase): Io
    requires request in io.requests
  {
    io.(requests := io.requests[request := io.requests[request].(phase := phase)])
  }

  // The steps of one request.
  function NextRequest(s: Server, step: Step): Server {
    match step
    case AcquireSlot(request, token) => s.(io := Acquire(s.io, request, token))
    case Register(request) => if request in s.io.requests then s.(io := Admit(s.io, request)) else s
    case StartWorker(request, started) =>
      if request in s.io.requests && s.io.requests[request].phase == Starting
      then s.(io := if started then Advance(s.io, request, Connecting) else Finish(s.io, request)) else s
    case Attach(request, expired) =>
      if request in s.io.requests && s.io.requests[request].phase == Connecting
      then s.(io := Advance(s.io, request, if expired || s.io.requests[request].cancelled then Closing else Attached))
      else s
    case Send(request) =>
      // Cancelling closes an attached socket, so nothing is sent on it any more.
      if request in s.io.requests && s.io.requests[request].phase == Attached && !s.io.requests[request].cancelled
      then s.(sends := s.sends + [s.io.requests[request].token]) else s
    case GiveUp(request) => if request in s.io.requests then s.(io := Cancel(s.io, request)) else s
    case EndWorker(request) =>
      if request in s.io.requests && s.io.requests[request].phase in {Connecting, Attached, Closing}
      then s.(io := Finish(s.io, request)) else s
    case _ => s
  }

  // The steps of one revoke.
  function NextRevoke(s: Server, step: Step): Server {
    match step
    case MarkScope(call, token) =>
      var marked := Mark(s.io, token, s.history.registry.maxRecords);
      if call in s.revokes then s
      else if marked.None? then s.(revokes := s.revokes[call := Unavailable(token)])
      else s.(io := marked.value.0, revokes := s.revokes[call := Marked(token, marked.value.1)])
    case ClearScope(call) =>
      if call in s.revokes && s.revokes[call].Marked? then
        var r := s.revokes[call];
        if R.Revoke(s.history.registry, r.token).1 == R.Accepted
        then s.(history := R.Next(s.history, R.RevokeStep(r.token)),
                revokes := s.revokes[call := Cleared(r.token, r.active)])
        else s.(revokes := s.revokes[call := Unavailable(r.token)])
      else s
    case Conclude(call) =>
      if call in s.revokes && s.revokes[call].Cleared? then
        var r := s.revokes[call];
        var done := r.active.None? || (r.active.value in s.io.requests && !Working(s.io.requests[r.active.value]));
        s.(revokes := s.revokes[call := if done then Acknowledged(r.token) else Unavailable(r.token)])
      else s
    case _ => s
  }

  function Next(s: Server, step: Step): Server {
    if step.MarkScope? || step.ClearScope? || step.Conclude? then NextRevoke(s, step)
    else if step.Authority? then s.(history := R.Next(s.history, step.step))
    else NextRequest(s, step)
  }

  function Run(s: Server, steps: seq<Step>): Server {
    if steps == [] then s else Next(Run(s, steps[..|steps| - 1]), steps[|steps| - 1])
  }

  function Init(maxActive: nat, maxRecords: nat): Server {
    Server(Io(false, map[], {}, map[]), R.Init(maxActive, maxRecords), map[], [])
  }

  // ---------------------------------------------------------------- the invariant

  // The slot is held exactly while one request is being set up or its worker is unfinished.
  predicate SlotOk(io: Io) {
    && (io.slot <==> exists q | q in io.requests :: Working(io.requests[q]))
    && (forall p, q | p in io.requests && q in io.requests && Working(io.requests[p]) && Working(io.requests[q]) ::
          p == q)
  }

  // The table of scopes lists exactly the registered requests.
  predicate TableOk(io: Io) {
    && (forall t | t in io.scopeIo :: io.scopeIo[t] in io.requests && Registered(io.requests[io.scopeIo[t]])
                                      && io.requests[io.scopeIo[t]].token == Some(t))
    && (forall q | q in io.requests && Registered(io.requests[q]) && io.requests[q].token.Some? ::
          io.requests[q].token.value in io.scopeIo && io.scopeIo[io.requests[q].token.value] == q)
  }

  // A request registered for a revoked scope has been cancelled.
  predicate CancelledOk(io: Io) {
    forall q | q in io.requests && Registered(io.requests[q]) && io.requests[q].token.Some?
           && io.requests[q].token.value in io.revoked ::
      io.requests[q].cancelled
  }

  predicate IoOk(io: Io) {
    SlotOk(io) && TableOk(io) && CancelledOk(io)
  }

  // Only this request, if any, is still registered for the scope.
  predicate OnlyActive(io: Io, token: nat, active: Option<nat>) {
    && token in io.revoked
    && forall q | q in io.requests && Registered(io.requests[q]) && io.requests[q].token == Some(token) ::
         active == Some(q)
  }

  // The request that a revoke found was registered for the scope.
  predicate Found(io: Io, token: nat, active: Option<nat>) {
    active.Some? ==> active.value in io.requests && io.requests[active.value].token == Some(token)
                     && io.requests[active.value].phase != SettingUp
  }

  predicate Tombstone(r: R.Registry, token: nat) {
    token in r.scopes && r.scopes[token].binding.None?
  }

  predicate RevokeOk(io: Io, r: R.Registry, v: Revoke) {
    match v
    case Marked(token, active) => OnlyActive(io, token, active) && Found(io, token, active)
    case Cleared(token, active) => OnlyActive(io, token, active) && Found(io, token, active) && Tombstone(r, token)
    case Acknowledged(token) => OnlyActive(io, token, None) && Tombstone(r, token)
    case Unavailable(_) => true
  }

  predicate Sound(s: Server) {
    IoOk(s.io) && R.Sound(s.history) && forall c | c in s.revokes :: RevokeOk(s.io, s.history.registry, s.revokes[c])
  }

  predicate Follows(q: Request, q': Request) {
    && q'.token == q.token && (q.cancelled ==> q'.cancelled)
    && (q.phase != SettingUp ==> q'.phase != SettingUp) && (q.phase == Finished ==> q'.phase == Finished)
  }

  // No request becomes registered for a revoked scope, and revoked scopes stay revoked; a request keeps
  // its scope, and stays cancelled.
  predicate IoExtends(a: Io, b: Io) {
    && a.revoked <= b.revoked
    && (forall q | q in a.requests :: q in b.requests && Follows(a.requests[q], b.requests[q]))
    && (forall q | && q in b.requests && Registered(b.requests[q]) && b.requests[q].token.Some?
                   && b.requests[q].token.value in a.revoked ::
          q in a.requests && Registered(a.requests[q]) && a.requests[q].token == b.requests[q].token)
  }

  lemma AcquireOk(io: Io, request: nat, token: Option<nat>)
    requires IoOk(io)
    ensures IoOk(Acquire(io, request, token)) && IoExtends(io, Acquire(io, request, token))
  {
    var m := Acquire(io, request, token);
    assert request in m.requests ==> (m == io || Working(m.requests[request]));
  }

  lemma FinishOk(io: Io, request: nat)
    requires IoOk(io) && request in io.requests && Registered(io.requests[request])
    ensures IoOk(Finish(io, request)) && IoExtends(io, Finish(io, request))
  {
  }

  lemma AdmitOk(io: Io, request: nat)
    requires IoOk(io) && request in io.requests
    ensures IoOk(Admit(io, request)) && IoExtends(io, Admit(io, request))
  {
    var m := Admit(io, request);
    if io.requests[request].phase == SettingUp {
      assert Working(io.requests[request]);
      if m.requests[request].phase == Starting {
        assert Working(m.requests[request]);
      }
    }
  }

  lemma SlotMoves(io: Io, request: nat, q: Request)
    requires SlotOk(io) && request in io.requests && Working(q) == Working(io.requests[request])
    ensures SlotOk(io.(requests := io.requests[request := q]))
  {
    var m := io.(requests := io.requests[request := q]);
    assert forall p | p in io.requests :: p in m.requests && Working(m.requests[p]) == Working(io.requests[p]);
  }

  // A registered request moves on, or is cancelled.
  lemma MoveOk(io: Io, request: nat, q: Request)
    requires IoOk(io) && request in io.requests && q.token == io.requests[request].token
    requires Working(q) == Working(io.requests[request]) && Registered(q) == Registered(io.requests[request])
    requires Follows(io.requests[request], q)
    ensures var m := io.(requests := io.requests[request := q]); IoOk(m) && IoExtends(io, m)
  {
    SlotMoves(io, request, q);
    hide SlotOk, Working;
  }

  lemma MarkOk(io: Io, token: nat, limit: nat)
    requires IoOk(io) && Mark(io, token, limit).Some?
    ensures var (m, active) := Mark(io, token, limit).value;
            IoOk(m) && IoExtends(io, m) && OnlyActive(m, token, active) && Found(m, token, active)
  {
    var marked := io.(revoked := io.revoked + {token});
    var (m, active) := Mark(io, token, limit).value;
    if active.Some? {
      CancelKeeps(marked, active.value);
    }
  }

  lemma CancelKeeps(io: Io, request: nat)
    requires SlotOk(io) && TableOk(io) && request in io.requests
    ensures SlotOk(Cancel(io, request)) && TableOk(Cancel(io, request))
  {
    var m := Cancel(io, request);
    if io.slot {
      var p :| p in io.requests && Working(io.requests[p]);
      assert Working(m.requests[p]);
    }
    if p :| p in m.requests && Working(m.requests[p]) {
      assert Working(io.requests[p]);
    }
  }

  lemma RequestSound(s: Server, step: Step)
    requires Sound(s)
    ensures var m := NextRequest(s, step);
            && IoOk(m.io) && IoExtends(s.io, m.io) && m.history == s.history && m.revokes == s.revokes
            && (m.sends == s.sends
                || exists q :: q in s.io.requests && m.sends == s.sends + [s.io.requests[q].token]
                               && Registered(s.io.requests[q]) && !s.io.requests[q].cancelled)
  {
    hide IoOk, IoExtends, R.Sound, Acquire, Admit, Finish;
    ExtendsSelf(s.io);
    match step {
      case AcquireSlot(request, token) => AcquireOk(s.io, request, token);
      case Register(request) =>
        if request in s.io.requests {
          AdmitOk(s.io, request);
        }
      case StartWorker(request, started) =>
        if request in s.io.requests && s.io.requests[request].phase == Starting {
          FinishOk(s.io, request);
          MoveOk(s.io, request, s.io.requests[request].(phase := Connecting));
        }
      case Attach(request, expired) =>
        if request in s.io.requests && s.io.requests[request].phase == Connecting {
          MoveOk(s.io, request,
                 s.io.requests[request].(phase := if expired || s.io.requests[request].cancelled then Closing
                                                  else Attached));
        }
      case Send(request) =>
      case GiveUp(request) =>
        if request in s.io.requests {
          MoveOk(s.io, request, s.io.requests[request].(cancelled := true));
        }
      case EndWorker(request) =>
        if request in s.io.requests && s.io.requests[request].phase in {Connecting, Attached, Closing} {
          FinishOk(s.io, request);
        }
      case _ =>
    }
  }

  lemma ExtendsSelf(io: Io)
    ensures IoExtends(io, io)
  {
  }

  lemma RevokesStay(io: Io, m: Io, r: R.Registry, k: R.Registry, v: Revoke)
    requires RevokeOk(io, r, v) && IoExtends(io, m)
    requires forall t | Tombstone(r, t) :: Tombstone(k, t)
    ensures RevokeOk(m, k, v)
  {
  }

  lemma TombstonesStay(h: R.History, step: R.Step)
    requires R.Sound(h)
    ensures R.Sound(R.Next(h, step))
    ensures forall t | Tombstone(h.registry, t) :: Tombstone(R.Next(h, step).registry, t)
  {
    hide R.Sound, R.Next;
    R.NextSound(h, step);
  }

  lemma RevokedTombstone(h: R.History, token: nat)
    requires R.Revoke(h.registry, token).1 == R.Accepted
    ensures Tombstone(R.Next(h, R.RevokeStep(token)).registry, token)
  {
  }

  lemma RevokeSound(s: Server, step: Step)
    requires Sound(s)
    ensures var m := NextRevoke(s, step);
            Sound(m) && IoExtends(s.io, m.io) && m.sends == s.sends && R.Extends(s.history, m.history)
  {
    hide IoOk, IoExtends, OnlyActive, R.Sound, R.Next, R.Revoke, R.Extends, Mark, Tombstone;
    ExtendsSelf(s.io);
    R.ExtendsSelf(s.history);
    var m := NextRevoke(s, step);
    match step {
      case MarkScope(call, token) =>
        if call !in s.revokes && Mark(s.io, token, s.history.registry.maxRecords).Some? {
          MarkOk(s.io, token, s.history.registry.maxRecords);
          forall c | c in s.revokes ensures RevokeOk(m.io, m.history.registry, s.revokes[c]) {
            RevokesStay(s.io, m.io, s.history.registry, s.history.registry, s.revokes[c]);
          }
        }
      case ClearScope(call) =>
        if call in s.revokes && s.revokes[call].Marked? {
          var token := s.revokes[call].token;
          TombstonesStay(s.history, R.RevokeStep(token));
          R.NextSound(s.history, R.RevokeStep(token));
          forall c | c in s.revokes ensures RevokeOk(m.io, m.history.registry, s.revokes[c]) {
            RevokesStay(s.io, m.io, s.history.registry, m.history.registry, s.revokes[c]);
          }
          if R.Revoke(s.history.registry, token).1 == R.Accepted {
            RevokedTombstone(s.history, token);
          }
        }
      case Conclude(call) =>
        if call in s.revokes && s.revokes[call].Cleared? {
          var r := s.revokes[call];
          if m.revokes[call] == Acknowledged(r.token) {
            Drained(s.io, r.token, r.active);
          }
        }
      case _ =>
    }
  }

  lemma Drained(io: Io, token: nat, active: Option<nat>)
    requires OnlyActive(io, token, active)
    requires active.None? || (active.value in io.requests && !Working(io.requests[active.value]))
    ensures OnlyActive(io, token, None)
  {
  }

  // What was sent for one scope.
  function SentFor(sends: seq<Option<nat>>, token: nat): seq<Option<nat>> {
    if sends == [] then []
    else SentFor(sends[..|sends| - 1], token) + (if sends[|sends| - 1] == Some(token) then [sends[|sends| - 1]] else [])
  }

  // What no event undoes.
  predicate Extends(s: Server, m: Server) {
    && IoExtends(s.io, m.io) && R.Extends(s.history, m.history)
    && (forall c | c in s.revokes && s.revokes[c].Acknowledged? :: c in m.revokes && m.revokes[c] == s.revokes[c])
    && (forall t | t in s.io.revoked :: SentFor(m.sends, t) == SentFor(s.sends, t))
  }

  lemma SendsOthers(s: Server, q: nat)
    requires Sound(s) && q in s.io.requests && Registered(s.io.requests[q]) && !s.io.requests[q].cancelled
    ensures forall t | t in s.io.revoked :: SentFor(s.sends + [s.io.requests[q].token], t) == SentFor(s.sends, t)
  {
    hide R.Sound, SlotOk, TableOk, RevokeOk;
    assert (s.sends + [s.io.requests[q].token])[..|s.sends|] == s.sends;
  }

  lemma NextSound(s: Server, step: Step)
    requires Sound(s)
    ensures Sound(Next(s, step)) && Extends(s, Next(s, step))
  {
    hide IoOk, IoExtends, RevokeOk, R.Sound, R.Next, R.Extends, NextRequest, Tombstone, SentFor, Registered;
    var m := Next(s, step);
    R.ExtendsSelf(s.history);
    ExtendsSelf(s.io);
    if step.MarkScope? || step.ClearScope? || step.Conclude? {
      RevokeSound(s, step);
    } else if step.Authority? {
      TombstonesStay(s.history, step.step);
      R.NextSound(s.history, step.step);
      forall c | c in s.revokes ensures RevokeOk(m.io, m.history.registry, s.revokes[c]) {
        RevokesStay(s.io, m.io, s.history.registry, m.history.registry, s.revokes[c]);
      }
    } else {
      RequestSound(s, step);
      forall c | c in s.revokes ensures RevokeOk(m.io, m.history.registry, s.revokes[c]) {
        RevokesStay(s.io, m.io, s.history.registry, s.history.registry, s.revokes[c]);
      }
      if m.sends != s.sends {
        var q :| && q in s.io.requests && m.sends == s.sends + [s.io.requests[q].token]
                 && Registered(s.io.requests[q]) && !s.io.requests[q].cancelled;
        SendsOthers(s, q);
      }
    }
  }

  lemma ExtendsOn(s: Server, m: Server, n: Server)
    requires Extends(s, m) && Extends(m, n)
    ensures Extends(s, n)
  {
    hide R.Extends, SentFor;
    R.ExtendsOn(s.history, m.history, n.history);
  }

  lemma {:induction false} AlwaysSound(s: Server, steps: seq<Step>)
    requires Sound(s)
    ensures Sound(Run(s, steps)) && Extends(s, Run(s, steps))
  {
    hide Sound, Next, Extends;
    if steps == [] {
      assert Extends(s, s) by {
        SelfExtends(s);
      }
    } else {
      var before := Run(s, steps[..|steps| - 1]);
      AlwaysSound(s, steps[..|steps| - 1]);
      NextSound(before, steps[|steps| - 1]);
      ExtendsOn(s, before, Next(before, steps[|steps| - 1]));
    }
  }

  lemma SelfExtends(s: Server)
    ensures Extends(s, s)
  {
    R.ExtendsSelf(s.history);
  }

  lemma InitSound(maxActive: nat, maxRecords: nat)
    ensures Sound(Init(maxActive, maxRecords))
  {
    R.InitSound(maxActive, maxRecords);
  }

  // In every reachable state the slot is held exactly while a request is being set up or its worker
  // is unfinished, by one request at most.
  lemma SlotExact(maxActive: nat, maxRecords: nat, steps: seq<Step>)
    ensures SlotOk(Run(Init(maxActive, maxRecords), steps).io)
  {
    hide R.Sound, Next;
    InitSound(maxActive, maxRecords);
    AlwaysSound(Init(maxActive, maxRecords), steps);
  }

  // Once a revoke has returned normally no request of the scope is registered or at work, and none
  // ever will be, and its authority is gone for good.
  lemma AcknowledgedForGood(maxActive: nat, maxRecords: nat, steps: seq<Step>, call: nat, more: seq<Step>, b: R.Binding,
                            now: int, lease: bool)
    requires var s := Run(Init(maxActive, maxRecords), steps); call in s.revokes && s.revokes[call].Acknowledged?
    ensures var token := Run(Init(maxActive, maxRecords), steps).revokes[call].token;
            var m := Run(Run(Init(maxActive, maxRecords), steps), more);
            && (forall q | q in m.io.requests && m.io.requests[q].token == Some(token) :: !Registered(m.io.requests[q]))
            && R.Authorize(m.history.registry, token, now, lease).1 == None
            && R.Register(m.history.registry, token, b, now).1 == R.Rejected
  {
    hide R.Sound, Next, IoOk, R.BindingOk;
    InitSound(maxActive, maxRecords);
    AlwaysSound(Init(maxActive, maxRecords), steps);
    var s := Run(Init(maxActive, maxRecords), steps);
    AlwaysSound(s, more);
    assert RevokeOk(s.io, s.history.registry, s.revokes[call]);
  }

  // From the moment a scope is marked, before any acknowledgement and after it, nothing more is sent for it.
  lemma MarkedSilent(maxActive: nat, maxRecords: nat, steps: seq<Step>, token: nat, more: seq<Step>)
    requires token in Run(Init(maxActive, maxRecords), steps).io.revoked
    ensures var s := Run(Init(maxActive, maxRecords), steps);
            SentFor(Run(s, more).sends, token) == SentFor(s.sends, token)
  {
    hide R.Sound, Next, IoOk, SentFor;
    InitSound(maxActive, maxRecords);
    AlwaysSound(Init(maxActive, maxRecords), steps);
    AlwaysSound(Run(Init(maxActive, maxRecords), steps), more);
  }

  // ---------------------------------------------------------------- what becomes of a request or a revoke

  // A free slot, and a request that has not been made yet.
  predicate Free(s: Server, request: nat) {
    Sound(s) && !s.io.slot && request !in s.io.requests
  }

  // The request in this phase, with the slot, registered for its scope.
  function Holding(io: Io, request: nat, q: Request): Io {
    io.(slot := true, requests := io.requests[request := q],
        scopeIo := if q.token.Some? then io.scopeIo[q.token.value := request] else io.scopeIo)
  }

  // The request is done, with the slot free again.
  function Ended(io: Io, request: nat, q: Request): Io {
    io.(requests := io.requests[request := q.(phase := Finished)])
  }

  // Nothing but the tables has changed.
  predicate Reaches(s: Server, m: Server, io: Io) {
    m == s.(io := io)
  }

  function Setup(s: Server, request: nat, token: Option<nat>): Server {
    Next(Next(s, AcquireSlot(request, token)), Register(request))
  }

  lemma FreeEmpty(s: Server, request: nat)
    requires Free(s, request)
    ensures !s.io.slot && s.io.scopeIo == map[]
  {
    hide R.Sound, RevokeOk;
    assert forall q | q in s.io.requests :: !Working(s.io.requests[q]);
  }

  lemma HoldingAt(io: Io, request: nat, q: Request)
    ensures var h := Holding(io, request, q); request in h.requests && h.requests[request] == q
  {
  }

  // A held request moves on.
  lemma HoldingMoves(io: Io, request: nat, q: Request, q': Request)
    requires q'.token == q.token
    ensures var h := Holding(io, request, q);
            h.(requests := h.requests[request := q']) == Holding(io, request, q')
  {
  }

  lemma HoldingEnds(io: Io, request: nat, q: Request)
    requires !io.slot && io.scopeIo == map[]
    ensures request in Holding(io, request, q).requests
    ensures Finish(Holding(io, request, q), request) == Ended(io, request, q)
  {
    var h := Holding(io, request, q);
    assert h.requests[request := q.(phase := Finished)] == io.requests[request := q.(phase := Finished)];
    if q.token.Some? {
      assert h.scopeIo - {q.token.value} == io.scopeIo;
    }
  }

  lemma SetupHolds(s: Server, request: nat, token: Option<nat>)
    requires Free(s, request) && (token.Some? ==> token.value !in s.io.revoked)
    ensures Reaches(s, Setup(s, request, token), Holding(s.io, request, Request(token, Starting, false)))
  {
    hide Sound;
  }

  // The worker of a held request starts and connects, ends, or does not start.
  lemma HeldSteps(s: Server, m: Server, request: nat, q: Request)
    requires Free(s, request) && Reaches(s, m, Holding(s.io, request, q)) && Registered(q)
    ensures q.phase == Starting ==>
              && Reaches(s, Next(m, StartWorker(request, true)), Holding(s.io, request, q.(phase := Connecting)))
              && Reaches(s, Next(m, StartWorker(request, false)), Ended(s.io, request, q))
    ensures q.phase != Starting ==> Reaches(s, Next(m, EndWorker(request)), Ended(s.io, request, q))
  {
    hide Free, Holding, Finish, Ended, NextRevoke;
    FreeEmpty(s, request);
    HoldingAt(s.io, request, q);
    HoldingMoves(s.io, request, q, q.(phase := Connecting));
    HoldingEnds(s.io, request, q);
  }

  lemma HeldAttaches(s: Server, m: Server, request: nat, q: Request, expired: bool)
    requires Reaches(s, m, Holding(s.io, request, q)) && q.phase == Connecting
    ensures Reaches(s, Next(m, GiveUp(request)), Holding(s.io, request, q.(cancelled := true)))
    ensures Reaches(s, Next(m, Attach(request, expired)),
                    Holding(s.io, request, q.(phase := if expired || q.cancelled then Closing else Attached)))
  {
    hide Holding;
    HoldingAt(s.io, request, q);
    HoldingMoves(s.io, request, q, q.(cancelled := true));
    HoldingMoves(s.io, request, q, q.(phase := if expired || q.cancelled then Closing else Attached));
  }

  lemma HeldSends(s: Server, m: Server, request: nat, q: Request)
    requires Reaches(s, m, Holding(s.io, request, q))
    ensures Next(m, Send(request))
            == if q.phase == Attached && !q.cancelled then m.(sends := s.sends + [q.token]) else m
  {
    hide Holding;
    HoldingAt(s.io, request, q);
  }

  // A request that nobody disturbs, of no scope or of one that is not revoked, is sent once.
  lemma Served(s: Server, request: nat, token: Option<nat>)
    requires Free(s, request) && (token.Some? ==> token.value !in s.io.revoked)
    ensures var connected := Next(Setup(s, request, token), StartWorker(request, true));
            var attached := Next(connected, Attach(request, false));
            var m := Next(Next(attached, Send(request)), EndWorker(request));
            m == s.(io := Ended(s.io, request, Request(token, Attached, false)), sends := s.sends + [token])
  {
    hide Sound, Setup, Finish, Holding, Ended, NextRequest;
    var q := Request(token, Attached, false);
    SetupHolds(s, request, token);
    HeldSteps(s, Setup(s, request, token), request, q.(phase := Starting));
    var connected := Next(Setup(s, request, token), StartWorker(request, true));
    HeldAttaches(s, connected, request, q.(phase := Connecting), false);
    var attached := Next(connected, Attach(request, false));
    HeldSends(s, attached, request, q);
    var sent := s.(sends := s.sends + [token]);
    FreeSent(s, sent, request);
    HeldSteps(sent, Next(attached, Send(request)), request, q);
  }

  lemma FreeSent(s: Server, m: Server, request: nat)
    requires Free(s, request) && m == s.(sends := m.sends)
    ensures Free(m, request)
  {
    hide IoOk, R.Sound, RevokeOk;
  }

  // One of a revoked scope is refused, and nothing is sent for it.
  lemma RefusedSetup(s: Server, request: nat, token: nat)
    requires Free(s, request) && token in s.io.revoked
    ensures Reaches(s, Setup(s, request, Some(token)), Ended(s.io, request, Request(Some(token), SettingUp, false)))
  {
    hide Sound;
  }

  // One whose worker does not start or connect is done without anything sent.
  lemma Unconnected(s: Server, request: nat, token: Option<nat>)
    requires Free(s, request) && (token.Some? ==> token.value !in s.io.revoked)
    ensures var q := Request(token, Starting, false);
            && Reaches(s, Next(Setup(s, request, token), StartWorker(request, false)), Ended(s.io, request, q))
            && Reaches(s, Next(Next(Setup(s, request, token), StartWorker(request, true)), EndWorker(request)),
                       Ended(s.io, request, q))
  {
    hide Sound, Setup, Finish, Holding, NextRequest;
    var q := Request(token, Starting, false);
    SetupHolds(s, request, token);
    HeldSteps(s, Setup(s, request, token), request, q);
    HeldSteps(s, Next(Setup(s, request, token), StartWorker(request, true)), request, q.(phase := Connecting));
  }

  // So is one that is too late, or cancelled, when it would attach.
  lemma Dropped(s: Server, request: nat, token: Option<nat>, expired: bool)
    requires Free(s, request) && (token.Some? ==> token.value !in s.io.revoked)
    ensures var connected := Next(Setup(s, request, token), StartWorker(request, true));
            var given := if expired then connected else Next(connected, GiveUp(request));
            var m := Next(Next(Next(given, Attach(request, expired)), Send(request)), EndWorker(request));
            Reaches(s, m, Ended(s.io, request, Request(token, Closing, !expired)))
  {
    hide Sound, Setup, Finish, Holding, Ended, NextRequest;
    var q := Request(token, Starting, false);
    SetupHolds(s, request, token);
    HeldSteps(s, Setup(s, request, token), request, q);
    var connected := Next(Setup(s, request, token), StartWorker(request, true));
    HeldAttaches(s, connected, request, q.(phase := Connecting), expired);
    var given := if expired then connected else Next(connected, GiveUp(request));
    HeldAttaches(s, given, request, q.(phase := Connecting, cancelled := !expired), expired);
    var closing := q.(phase := Closing, cancelled := !expired);
    HeldSends(s, Next(given, Attach(request, expired)), request, closing);
    HeldSteps(s, Next(Next(given, Attach(request, expired)), Send(request)), request, closing);
  }

  // Nothing is ever sent for a request again once it has been given up.
  lemma GivenUp(s: Server, request: nat, more: seq<Step>)
    requires Sound(s) && request in s.io.requests
    ensures var m := Run(Next(s, GiveUp(request)), more); Next(m, Send(request)) == m
  {
    hide Sound, IoExtends, Extends, Run, Next, R.Sound;
    var given := Next(s, GiveUp(request));
    NextSound(s, GiveUp(request));
    Cancelled(s, request);
    AlwaysSound(given, more);
    StaysCancelled(given, Run(given, more), request);
    CancelledSilent(Run(given, more), request);
  }

  lemma Cancelled(s: Server, request: nat)
    requires request in s.io.requests
    ensures var m := Next(s, GiveUp(request)); request in m.io.requests && m.io.requests[request].cancelled
  {
  }

  lemma StaysCancelled(s: Server, m: Server, request: nat)
    requires Extends(s, m) && request in s.io.requests && s.io.requests[request].cancelled
    ensures request in m.io.requests && m.io.requests[request].cancelled
  {
  }

  lemma CancelledSilent(s: Server, request: nat)
    requires request in s.io.requests && s.io.requests[request].cancelled
    ensures Next(s, Send(request)) == s
  {
  }

  // No request of the scope is registered.
  predicate NoneOf(io: Io, token: nat) {
    forall q | q in io.requests && Registered(io.requests[q]) :: io.requests[q].token != Some(token)
  }

  predicate RoomToMark(io: Io, token: nat, limit: nat) {
    token in io.revoked || |io.revoked| < limit
  }

  // A scope is marked exactly if there is room to remember it, and its registered request cancelled.
  lemma MarksExactly(io: Io, token: nat, limit: nat)
    requires IoOk(io)
    ensures Mark(io, token, limit).Some? <==> RoomToMark(io, token, limit)
    ensures RoomToMark(io, token, limit) ==>
              var (m, active) := Mark(io, token, limit).value;
              && m.revoked == io.revoked + {token} && (active.None? <==> NoneOf(io, token))
              && (forall q | q in io.requests && Registered(io.requests[q]) && io.requests[q].token == Some(token) ::
                    q in m.requests && m.requests[q].cancelled)
              && (active.Some? ==> active.value in m.requests && Working(m.requests[active.value]))
  {
    hide SlotOk, CancelledOk;
  }

  lemma MarkStep(s: Server, call: nat, token: nat)
    requires call !in s.revokes
    ensures var marked := Mark(s.io, token, s.history.registry.maxRecords);
            Next(s, MarkScope(call, token))
            == if marked.None? then s.(revokes := s.revokes[call := Unavailable(token)])
               else s.(io := marked.value.0, revokes := s.revokes[call := Marked(token, marked.value.1)])
  {
    hide Mark;
  }

  lemma ClearStep(s: Server, call: nat)
    requires call in s.revokes
    ensures var v, m := s.revokes[call], Next(s, ClearScope(call));
            && m.io == s.io && m.sends == s.sends
            && (if !v.Marked? then m == s
                else m.revokes == s.revokes[call :=
                       if || v.token in s.history.registry.scopes
                          || |s.history.registry.scopes| < s.history.registry.maxRecords
                       then Cleared(v.token, v.active) else Unavailable(v.token)])
  {
    hide R.Next;
  }

  lemma ConcludeStep(s: Server, call: nat)
    requires call in s.revokes
    ensures var v, m := s.revokes[call], Next(s, Conclude(call));
            && m.io == s.io && m.sends == s.sends
            && (if !v.Cleared? then m == s
                else m.revokes == s.revokes[call :=
                       if v.active.None? || (v.active.value in s.io.requests && !Working(s.io.requests[v.active.value]))
                       then Acknowledged(v.token) else Unavailable(v.token)])
  {
  }

  // A revoke that nobody disturbs is acknowledged exactly if there was room to remember it, here and among
  // the authorities, and no request of the scope is registered; a registered one is cancelled in any case.
  lemma RevokesExactly(s: Server, call: nat, token: nat)
    requires Sound(s) && call !in s.revokes
    ensures var limit := s.history.registry.maxRecords;
            var marked := Next(s, MarkScope(call, token));
            var m := Next(Next(marked, ClearScope(call)), Conclude(call));
            var clear := token in s.history.registry.scopes || |s.history.registry.scopes| < limit;
            && m.sends == s.sends && m.io == marked.io
            && m.revokes == s.revokes[call := if RoomToMark(s.io, token, limit) && clear && NoneOf(s.io, token)
                                              then Acknowledged(token) else Unavailable(token)]
            && (if RoomToMark(s.io, token, limit) then Mark(s.io, token, limit).Some?
                                                       && m.io == Mark(s.io, token, limit).value.0
                else m.io == s.io)
  {
    MarksExactly(s.io, token, s.history.registry.maxRecords);
    hide Sound, Mark, NoneOf, RoomToMark, Next;
    MarkStep(s, call, token);
    ClearStep(Next(s, MarkScope(call, token)), call);
    ConcludeStep(Next(Next(s, MarkScope(call, token)), ClearScope(call)), call);
  }

  // It is acknowledged as well if the requests of the scope have ended by the time it concludes.
  lemma ConcludesExactly(s: Server, call: nat)
    requires Sound(s) && call in s.revokes && s.revokes[call].Cleared?
    ensures var token, m := s.revokes[call].token, Next(s, Conclude(call));
            && m.io == s.io && m.history == s.history
            && m.revokes == s.revokes[call :=
                 if NoneOf(s.io, token) then Acknowledged(token) else Unavailable(token)]
  {
    hide R.Sound, IoOk;
    assert RevokeOk(s.io, s.history.registry, s.revokes[call]);
  }

  // ---------------------------------------------------------------- in place

  // The transport's I/O tables. Each method is one critical section.
  class TransportIo {
    const maxRecords: nat
    var slot: bool
    var scopeIo: map<nat, nat>
    var revoked: set<nat>
    var requests: map<nat, Request>

    function State(): Io
      reads this
    {
      Io(slot, scopeIo, revoked, requests)
    }

    constructor (maxRecords: nat)
      ensures State() == Init(0, maxRecords).io && IoOk(State()) && this.maxRecords == maxRecords
    {
      this.maxRecords := maxRecords;
      slot, scopeIo, revoked, requests := false, map[], {}, map[];
    }

    method AcquireSlot(request: nat, token: Option<nat>) returns (acquired: bool)
      requires IoOk(State()) && request !in requests
      modifies this
      ensures IoOk(State()) && State() == Acquire(old(State()), request, token) && acquired == !old(slot)
    {
      hide IoOk;
      AcquireOk(State(), request, token);
      if slot {
        return false;
      }
      slot := true;
      requests := requests[request := Request(token, SettingUp, false)];
      return true;
    }

    method RegisterRequest(request: nat) returns (admitted: bool)
      requires IoOk(State()) && request in requests && requests[request].phase == SettingUp
      modifies this
      ensures IoOk(State()) && State() == Admit(old(State()), request)
      ensures admitted == !(requests[request].token.Some? && requests[request].token.value in revoked)
    {
      hide IoOk;
      AdmitOk(State(), request);
      var q := requests[request];
      if q.token.Some? && q.token.value in revoked {
        slot := false;
        requests := requests[request := q.(phase := Finished)];
        return false;
      }
      if q.token.Some? {
        scopeIo := scopeIo[q.token.value := request];
      }
      requests := requests[request := q.(phase := Starting)];
      return true;
    }

    method FinishRequest(request: nat)
      requires IoOk(State()) && request in requests && Registered(requests[request])
      modifies this
      ensures IoOk(State()) && State() == Finish(old(State()), request)
    {
      hide IoOk;
      FinishOk(State(), request);
      var q := requests[request];
      slot := false;
      requests := requests[request := q.(phase := Finished)];
      if q.token.Some? {
        scopeIo := scopeIo - {q.token.value};
      }
    }

    method MarkRevoked(token: nat) returns (marked: bool, active: Option<nat>)
      requires IoOk(State())
      modifies this
      ensures IoOk(State())
      ensures var m := Mark(old(State()), token, maxRecords);
              if m.Some? then marked && (State(), active) == m.value && OnlyActive(State(), token, active)
              else !marked && State() == old(State())
    {
      hide IoOk, OnlyActive;
      if Mark(State(), token, maxRecords).Some? {
        MarkOk(State(), token, maxRecords);
      }
      if token !in revoked && |revoked| >= maxRecords {
        return false, None;
      }
      revoked := revoked + {token};
      marked, active := true, None;
      if token in scopeIo && scopeIo[token] in requests {
        active := Some(scopeIo[token]);
        requests := requests[scopeIo[token] := requests[scopeIo[token]].(cancelled := true)];
      }
    }
  }
}
