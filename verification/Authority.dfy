// The chain of inference authority: the transport reserves against a scope and issues an assertion,
// the gateway accounts for it again when the request arrives, if it arrives.
module Authority {
  import opened Wrappers
  import opened Pricing
  import R = ScopeRegistry
  import G = GatewayLedger

  // A request on its way to the gateway.
  datatype Flight = Flight(token: nat, assertion: G.Assertion, tokens: nat)

  // `clock` is in microseconds; the gateway sees whole seconds of it.
  datatype System = System(history: R.History, flights: seq<Flight>, gateway: G.Gateway, rates: Rates, clock: nat)

  datatype Step =
    | Wait(time: nat)
    | Register(token: nat, binding: R.Binding)
    | Forward(token: nat, model: nat, input: nat, maximum: int, lease: bool)
    | Deliver(flight: nat)
    | Lose(flight: nat)
    | Revoke(token: nat)

  const LEASE: int := 300 * R.SECOND
  const MAX_REQUEST: int := 100_000

  function Seconds(time: int): int {
    time / R.SECOND
  }

  function Min(a: int, b: int): int {
    if a < b then a else b
  }

  // The assertion issued for the next grant; its nonce is one never used before.
  function Issue(s: System, b: R.Binding): G.Assertion {
    G.Assertion(b.run, b.alias, b.maxTokens.output, Seconds(Min(b.expiresAt, s.clock + LEASE)), |s.history.grants|)
  }

  function ForwardRequest(s: System, token: nat, model: nat, input: nat, maximum: int, lease: bool): System {
    var b := R.Authorize(s.history.registry, token, s.clock, lease).1;
    var checked := s.(history := R.Next(s.history, R.AuthorizeStep(token, s.clock, lease)));
    if b.None? || model != b.value.alias || !(1 <= maximum <= MAX_REQUEST) then checked
    else
      var cost := Cost(s.rates, Tokens(input, maximum));
      var h := R.Next(checked.history, R.ReserveStep(token, input, maximum, cost, s.clock, lease));
      if h.grants == s.history.grants then checked.(history := h)
      else checked.(history := h, flights := s.flights + [Flight(token, Issue(s, b.value), maximum)])
  }

  function Without(flights: seq<Flight>, i: nat): seq<Flight>
    requires i < |flights|
  {
    flights[..i] + flights[i + 1..]
  }

  function DeliverFlight(s: System, i: nat): System {
    if i < |s.flights| && Seconds(s.clock) >= s.gateway.clock then
      s.(flights := Without(s.flights, i),
         gateway := G.Next(s.gateway,
                           G.Request(s.flights[i].assertion, s.flights[i].tokens, Seconds(s.clock) - s.gateway.clock)))
    else s
  }

  function Next(s: System, step: Step): System {
    match step
    case Wait(time) => s.(clock := s.clock + time)
    case Register(token, b) => s.(history := R.Next(s.history, R.RegisterStep(token, b, s.clock)))
    case Forward(token, model, input, maximum, lease) => ForwardRequest(s, token, model, input, maximum, lease)
    case Deliver(i) => DeliverFlight(s, i)
    case Lose(i) => if i < |s.flights| then s.(flights := Without(s.flights, i)) else s
    case Revoke(token) => s.(history := R.Next(s.history, R.RevokeStep(token)))
  }

  function Run(s: System, steps: seq<Step>): System {
    if steps == [] then s else Next(Run(s, steps[..|steps| - 1]), steps[|steps| - 1])
  }

  // A fresh transport before an empty gateway.
  function Init(maxActive: nat, maxRecords: nat, rates: Rates, alias: nat, gatewayRecords: nat,
                retention: nat): System {
    System(R.Init(maxActive, maxRecords), [], G.Init(gatewayRecords, retention, alias, 0), rates, 0)
  }

  // ---------------------------------------------------------------- the simulation

  // Tokens the gateway ever accepted for a run.
  function Reserved(accepted: seq<G.Accept>, run: nat): nat {
    if accepted == [] then 0
    else Reserved(accepted[..|accepted| - 1], run)
         + (if accepted[|accepted| - 1].assertion.run == run then accepted[|accepted| - 1].tokens else 0)
  }

  function InFlight(flights: seq<Flight>, token: nat): nat {
    if flights == [] then 0
    else InFlight(flights[..|flights| - 1], token)
         + (if flights[|flights| - 1].token == token then flights[|flights| - 1].tokens else 0)
  }

  // Output tokens that the transport counted for a scope.
  function Output(grants: seq<R.Grant>, token: nat): nat {
    R.Spent(R.GrantsOf(grants, token)).tokens.output
  }

  predicate FlightOk(f: Flight, h: R.History, clock: nat) {
    && f.token in h.issued
    && f.assertion.run == h.issued[f.token].run && f.assertion.alias == h.issued[f.token].alias
    && f.assertion.ceiling == h.issued[f.token].maxTokens.output
    && f.assertion.expiresAt <= Seconds(clock) + G.MAX_LIFETIME
    && f.assertion.nonce < |h.grants|
  }

  predicate Distinct(flights: seq<Flight>) {
    forall i, j | 0 <= i < j < |flights| :: flights[i].assertion.nonce != flights[j].assertion.nonce
  }

  // The gateway knows nothing but what the transport issued.
  predicate NoncesOk(s: System) {
    && Distinct(s.flights)
    && (forall n | n in s.gateway.ledger.nonces ::
          n < |s.history.grants| && forall f | f in s.flights :: f.assertion.nonce != n)
  }

  predicate RowsOk(s: System) {
    forall t, r | t in s.history.issued && r in s.gateway.ledger.runs && s.history.issued[t].run == r ::
      s.gateway.ledger.runs[r].alias == s.history.issued[t].alias
        && s.gateway.ledger.runs[r].ceiling == s.history.issued[t].maxTokens.output
  }

  predicate RunsKnown(s: System) {
    && (forall x | x in s.gateway.accepted :: x.assertion.run in s.history.registry.runs)
    && (forall r | r in s.gateway.ledger.runs :: r in s.history.registry.runs)
  }

  // What the gateway reserved and what is still on its way was all counted by the transport.
  predicate Counted(s: System) {
    forall t | t in s.history.issued ::
      Reserved(s.gateway.accepted, s.history.issued[t].run) + InFlight(s.flights, t) <= Output(s.history.grants, t)
  }

  predicate Charged(s: System) {
    forall g | g in s.history.grants :: g.cost == Cost(s.rates, g.ceiling)
  }

  predicate BindingsOk(s: System) {
    forall t | t in s.history.issued :: 1 <= s.history.issued[t].maxTokens.output <= G.MAX_CEILING
  }

  predicate Linked(s: System) {
    && R.Sound(s.history) && G.Sound(s.gateway) && s.gateway.clock <= Seconds(s.clock)
    && (forall f | f in s.flights :: FlightOk(f, s.history, s.clock))
    && NoncesOk(s) && RowsOk(s) && RunsKnown(s) && Counted(s) && Charged(s) && BindingsOk(s)
  }

  lemma {:induction false} ReservedNone(accepted: seq<G.Accept>, run: nat)
    requires forall x | x in accepted :: x.assertion.run != run
    ensures Reserved(accepted, run) == 0
  {
    if accepted != [] {
      ReservedNone(accepted[..|accepted| - 1], run);
    }
  }

  lemma {:induction false} InFlightNone(flights: seq<Flight>, token: nat)
    requires forall f | f in flights :: f.token != token
    ensures InFlight(flights, token) == 0
  {
    if flights != [] {
      InFlightNone(flights[..|flights| - 1], token);
    }
  }

  lemma {:induction false} InFlightWithout(flights: seq<Flight>, i: nat, token: nat)
    requires i < |flights|
    ensures InFlight(flights, token)
            == InFlight(Without(flights, i), token) + (if flights[i].token == token then flights[i].tokens else 0)
    decreases |flights|
  {
    var n := |flights| - 1;
    if i == n {
      assert Without(flights, i) == flights[..n];
    } else {
      assert Without(flights, i)[..n - 1] == Without(flights[..n], i);
      InFlightWithout(flights[..n], i, token);
    }
  }

  lemma {:induction false} UsedReserved(accepted: seq<G.Accept>, run: nat, since: int)
    ensures G.UsedSince(accepted, run, since) <= Reserved(accepted, run)
  {
    if accepted != [] {
      UsedReserved(accepted[..|accepted| - 1], run, since);
    }
  }

  // Bindings are registered, cleared and revoked without touching what was counted.
  lemma HistoryLinked(s: System, step: R.Step)
    requires Linked(s) && !step.ReserveStep?
    requires step.RegisterStep? ==> step.now == s.clock
    ensures Linked(s.(history := R.Next(s.history, step)))
  {
    hide R.Sound, G.Sound, FlightOk, NoncesOk, Output, Reserved, InFlight, R.BindingOk;
    var h := R.Next(s.history, step);
    var m := s.(history := h);
    R.NextSound(s.history, step);
    NewlyIssued(s.history, step);
    assert h.grants == s.history.grants;
    forall f | f in m.flights ensures FlightOk(f, h, m.clock) {
      FlightStays(f, s.history, h, s.clock, m.clock);
    }
    assert NoncesOk(m) by {
      NoncesStay(s, m);
    }
    forall t | t in h.issued
      ensures Reserved(m.gateway.accepted, h.issued[t].run) + InFlight(m.flights, t) <= Output(h.grants, t)
    {
      if t !in s.history.issued {
        ReservedNone(s.gateway.accepted, h.issued[t].run);
        forall f | f in s.flights ensures f.token != t {
          FlightIssued(f, s.history, s.clock);
        }
        InFlightNone(s.flights, t);
      }
    }
  }

  lemma NewlyIssued(h: R.History, step: R.Step)
    requires R.Sound(h) && !step.ReserveStep?
    ensures var k := R.Next(h, step);
            && k.grants == h.grants && h.registry.runs <= k.registry.runs
            && (forall t | t in h.issued :: t in k.issued && k.issued[t] == h.issued[t])
            && (forall t | t in k.issued && t !in h.issued ::
                  k.issued[t].run !in h.registry.runs && 1 <= k.issued[t].maxTokens.output <= G.MAX_CEILING)
  {
  }

  lemma FlightIssued(f: Flight, h: R.History, clock: nat)
    requires FlightOk(f, h, clock)
    ensures f.token in h.issued
  {
  }

  lemma FlightStays(f: Flight, h: R.History, k: R.History, clock: nat, later: nat)
    requires FlightOk(f, h, clock) && clock <= later && |h.grants| <= |k.grants|
    requires forall t | t in h.issued :: t in k.issued && k.issued[t] == h.issued[t]
    ensures FlightOk(f, k, later)
  {
    assert Seconds(clock) <= Seconds(later);
  }

  lemma NoncesStay(s: System, m: System)
    requires NoncesOk(s) && m.flights == s.flights && m.gateway == s.gateway && |s.history.grants| <= |m.history.grants|
    ensures NoncesOk(m)
  {
  }

  lemma WaitLinked(s: System, time: nat)
    requires Linked(s)
    ensures Linked(s.(clock := s.clock + time))
  {
    hide R.Sound, G.Sound, FlightOk, Output, Reserved, InFlight;
    var m := s.(clock := s.clock + time);
    assert Seconds(s.clock) <= Seconds(m.clock);
    forall f | f in m.flights ensures FlightOk(f, m.history, m.clock) {
      FlightStays(f, s.history, s.history, s.clock, m.clock);
    }
  }

  lemma LoseLinked(s: System, i: nat)
    requires Linked(s) && i < |s.flights|
    ensures Linked(s.(flights := Without(s.flights, i)))
  {
    hide R.Sound, G.Sound, FlightOk, Output, Reserved, InFlight;
    var m := s.(flights := Without(s.flights, i));
    forall t | t in m.history.issued
      ensures Reserved(m.gateway.accepted, m.history.issued[t].run) + InFlight(m.flights, t)
              <= Output(m.history.grants, t)
    {
      InFlightWithout(s.flights, i, t);
    }
  }

  // The transport counts a request before it sends it.
  lemma ForwardGrant(s: System, token: nat, input: nat, maximum: int, cost: int, lease: bool)
    requires Linked(s)
    ensures var h := R.Next(s.history, R.ReserveStep(token, input, maximum, cost, s.clock, lease));
            && R.Sound(h) && h.issued == s.history.issued && h.registry.runs == s.history.registry.runs
            && (h.grants == s.history.grants
                || (0 <= maximum && 0 <= cost
                    && h.grants == s.history.grants + [R.Grant(token, Tokens(input, maximum), cost)]))
  {
    hide R.Sound, G.Sound, FlightOk, NoncesOk, Output, Reserved, InFlight, RowsOk;
    R.NextSound(s.history, R.ReserveStep(token, input, maximum, cost, s.clock, lease));
  }

  lemma OutputAppend(grants: seq<R.Grant>, g: R.Grant, token: nat)
    ensures Output(grants + [g], token) == Output(grants, token) + (if g.token == token then g.ceiling.output else 0)
  {
    R.GrantAppend(grants, g, token);
    R.SpentAppend(R.GrantsOf(grants, token), g);
  }

  lemma InFlightAppend(flights: seq<Flight>, f: Flight, token: nat)
    ensures InFlight(flights + [f], token) == InFlight(flights, token) + (if f.token == token then f.tokens else 0)
  {
    assert (flights + [f])[..|flights|] == flights;
  }

  // Granting alone, with or without a request sent for it.
  lemma GrantLinked(s: System, h: R.History, g: R.Grant, sent: Option<Flight>)
    requires Linked(s) && R.Sound(h) && h.issued == s.history.issued && h.registry.runs == s.history.registry.runs
    requires h.grants == s.history.grants + [g] && g.cost == Cost(s.rates, g.ceiling)
    requires sent.Some? ==>
               && FlightOk(sent.value, h, s.clock) && sent.value.token == g.token
               && sent.value.tokens == g.ceiling.output
               && sent.value.assertion.nonce == |s.history.grants|
    ensures Linked(s.(history := h, flights := if sent.Some? then s.flights + [sent.value] else s.flights))
  {
    hide R.Sound, G.Sound, FlightOk, Output, Reserved, InFlight, NoncesOk, Cost;
    var m := s.(history := h, flights := if sent.Some? then s.flights + [sent.value] else s.flights);
    forall f | f in m.flights ensures FlightOk(f, h, m.clock) {
      if f in s.flights {
        FlightStays(f, s.history, h, s.clock, s.clock);
      }
    }
    NoncesSent(s, m, sent);
    forall t | t in h.issued
      ensures Reserved(m.gateway.accepted, h.issued[t].run) + InFlight(m.flights, t) <= Output(h.grants, t)
    {
      OutputAppend(s.history.grants, g, t);
      if sent.Some? {
        InFlightAppend(s.flights, sent.value, t);
      }
    }
  }

  lemma NoncesSent(s: System, m: System, sent: Option<Flight>)
    requires NoncesOk(s) && m.gateway == s.gateway && |m.history.grants| == |s.history.grants| + 1
    requires forall f | f in s.flights :: FlightOk(f, s.history, s.clock)
    requires m.flights == if sent.Some? then s.flights + [sent.value] else s.flights
    requires sent.Some? ==> sent.value.assertion.nonce == |s.history.grants|
    ensures NoncesOk(m)
  {
    forall i | 0 <= i < |s.flights| ensures s.flights[i].assertion.nonce < |s.history.grants| {
      assert FlightOk(s.flights[i], s.history, s.clock);
    }
  }

  // The lifetime of an assertion is within what the gateway allows, now and later.
  lemma IssuedInTime(s: System, b: R.Binding)
    ensures Issue(s, b).expiresAt <= Seconds(s.clock) + G.MAX_LIFETIME
  {
    assert Seconds(s.clock + LEASE) == Seconds(s.clock) + 300;
    assert Min(b.expiresAt, s.clock + LEASE) <= s.clock + LEASE;
  }

  lemma ForwardLinked(s: System, token: nat, model: nat, input: nat, maximum: int, lease: bool)
    requires Linked(s)
    ensures Linked(ForwardRequest(s, token, model, input, maximum, lease))
  {
    hide Linked, R.Next, R.Authorize, Issue, Cost;
    var b := R.Authorize(s.history.registry, token, s.clock, lease).1;
    HistoryLinked(s, R.AuthorizeStep(token, s.clock, lease));
    var checked := s.(history := R.Next(s.history, R.AuthorizeStep(token, s.clock, lease)));
    AuthorizeKeeps(s.history, token, s.clock, lease);
    if b.Some? && model == b.value.alias && 1 <= maximum <= MAX_REQUEST {
      var cost := Cost(s.rates, Tokens(input, maximum));
      var h := R.Next(checked.history, R.ReserveStep(token, input, maximum, cost, s.clock, lease));
      ForwardGrant(checked, token, input, maximum, cost, lease);
      if h.grants == s.history.grants {
        SameCounts(checked, h);
      } else {
        LinkedHistory(s);
        R.AuthorizedAsIssued(s.history, token, s.clock, lease);
        IssuedOk(s, token, b.value, h);
        GrantLinked(checked, h, R.Grant(token, Tokens(input, maximum), cost),
                    Some(Flight(token, Issue(s, b.value), maximum)));
      }
    }
  }

  lemma LinkedHistory(s: System)
    requires Linked(s)
    ensures R.Sound(s.history)
  {
  }

  lemma AuthorizeKeeps(h: R.History, token: nat, now: int, lease: bool)
    ensures var k := R.Next(h, R.AuthorizeStep(token, now, lease)); k.grants == h.grants && k.issued == h.issued
  {
  }

  lemma IssuedOk(s: System, token: nat, b: R.Binding, h: R.History)
    requires R.Issued(s.history, token) == Some(b) && h.issued == s.history.issued
             && |h.grants| == |s.history.grants| + 1
    ensures FlightOk(Flight(token, Issue(s, b), 0), h, s.clock)
    ensures forall n: nat :: FlightOk(Flight(token, Issue(s, b), n), h, s.clock)
    ensures Issue(s, b).nonce == |s.history.grants|
  {
    IssuedInTime(s, b);
  }

  lemma SameCounts(s: System, h: R.History)
    requires Linked(s) && R.Sound(h) && h.issued == s.history.issued && h.registry.runs == s.history.registry.runs
             && h.grants == s.history.grants
    ensures Linked(s.(history := h))
  {
    hide R.Sound, G.Sound, Output, Reserved, InFlight;
  }

  // ---------------------------------------------------------------- delivery

  // In a linked system the gateway finds the binding unchanged, the budget sufficient, the nonce
  // new and the lifetime short enough: it accepts a request if and only if the scope's alias is the
  // one it serves, the assertion has not expired, there is room, and the run has not been retired.
  lemma DeliveredExactly(s: System, i: nat)
    requires Linked(s) && i < |s.flights|
    ensures var a, now, l := s.flights[i].assertion, Seconds(s.clock), s.gateway.ledger;
            var p := G.Purge(l, now);
            var r := G.Prepare(l, s.gateway.alias, a, s.flights[i].tokens, now);
            && (r.Ok? <==> && a.alias == s.gateway.alias && now < a.expiresAt && |p.nonces| < p.maxRecords
                           && (if a.run in p.runs then now < p.runs[a.run].expiresAt else |p.runs| < p.maxRecords))
            && (r.Err? ==> r.error in {G.AliasMismatch, G.Expired, G.CapacityExhausted, G.Retired})
  {
    hide R.Sound, G.Sound, Reserved, Output, InFlight, R.Spent, R.GrantsOf, G.UsedSince, NoncesOk;
    var f := s.flights[i];
    var t, a := f.token, f.assertion;
    assert FlightOk(f, s.history, s.clock);
    FlightNew(s, f);
    Affordable(s, i);
  }

  lemma FlightNew(s: System, f: Flight)
    requires NoncesOk(s) && f in s.flights
    ensures f.assertion.nonce !in s.gateway.ledger.nonces
  {
  }

  lemma ScopeLimit(h: R.History, t: nat)
    requires R.Sound(h) && t in h.issued
    ensures Output(h.grants, t) <= h.issued[t].maxTokens.output
  {
    hide R.Spent, R.GrantsOf;
    assert R.ScopeOk(h.registry.scopes[t], R.Issued(h, t), R.GrantsOf(h.grants, t));
  }

  lemma RowUsed(g: G.Gateway, run: nat)
    requires G.Sound(g) && run in g.ledger.runs
    ensures g.ledger.runs[run].used <= Reserved(g.accepted, run)
  {
    hide G.UsedSince, Reserved;
    var row := g.ledger.runs[run];
    assert G.RowOk(g, run, row);
    UsedReserved(g.accepted, run, G.Created(g.ledger, row));
  }

  // What is reserved at the gateway for a run, and what is on its way, never exceeds the scope's
  // output counter, which never exceeds the binding's limit.
  lemma Affordable(s: System, i: nat)
    requires Linked(s) && i < |s.flights|
    ensures var f := s.flights[i];
            var used := if f.assertion.run in s.gateway.ledger.runs then s.gateway.ledger.runs[f.assertion.run].used
                        else 0;
            f.token in s.history.issued && used + f.tokens <= s.history.issued[f.token].maxTokens.output
  {
    hide R.Sound, G.Sound, Reserved, Output, InFlight, R.Spent, R.GrantsOf, G.UsedSince, NoncesOk, RowsOk;
    var f := s.flights[i];
    assert FlightOk(f, s.history, s.clock);
    InFlightWithout(s.flights, i, f.token);
    ScopeLimit(s.history, f.token);
    if f.assertion.run in s.gateway.ledger.runs {
      RowUsed(s.gateway, f.assertion.run);
    }
  }

  lemma ReservedAppend(accepted: seq<G.Accept>, x: G.Accept, run: nat)
    ensures Reserved(accepted + [x], run) == Reserved(accepted, run) + (if x.assertion.run == run then x.tokens else 0)
  {
    assert (accepted + [x])[..|accepted|] == accepted;
  }

  // The effect of a request on the gateway, as far as the simulation goes.
  lemma GatewayNext(g: G.Gateway, q: G.Request)
    ensures var h := G.Next(g, q);
            && h.clock == g.clock + q.wait
            && (h.accepted == g.accepted || h.accepted == g.accepted + [G.Accept(q.assertion, q.tokens, h.clock)])
            && (forall n | n in h.ledger.nonces :: n in g.ledger.nonces || n == q.assertion.nonce)
            && (forall r | r in h.ledger.runs ::
                  || (r in g.ledger.runs && h.ledger.runs[r].alias == g.ledger.runs[r].alias
                      && h.ledger.runs[r].ceiling == g.ledger.runs[r].ceiling)
                  || (r == q.assertion.run && h.ledger.runs[r].alias == q.assertion.alias
                      && h.ledger.runs[r].ceiling == q.assertion.ceiling))
  {
  }

  lemma DeliverCounted(s: System, i: nat, t: nat)
    requires Linked(s) && i < |s.flights| && t in s.history.issued
    ensures var m := DeliverFlight(s, i);
            Reserved(m.gateway.accepted, s.history.issued[t].run) + InFlight(m.flights, t)
              <= Output(s.history.grants, t)
  {
    hide R.Sound, G.Sound, Reserved, Output, InFlight, NoncesOk, RowsOk, G.Next;
    var f := s.flights[i];
    var q := G.Request(f.assertion, f.tokens, Seconds(s.clock) - s.gateway.clock);
    GatewayNext(s.gateway, q);
    InFlightWithout(s.flights, i, t);
    ReservedAppend(s.gateway.accepted, G.Accept(q.assertion, q.tokens, G.Next(s.gateway, q).clock),
                   s.history.issued[t].run);
    assert FlightOk(f, s.history, s.clock);
    if s.history.issued[t].run == f.assertion.run {
      OneToken(s.history, t, f.token);
    }
  }

  lemma OneToken(h: R.History, t: nat, u: nat)
    requires R.Sound(h) && t in h.issued && u in h.issued && h.issued[t].run == h.issued[u].run
    ensures t == u
  {
  }

  lemma DeliverLinked(s: System, i: nat)
    requires Linked(s)
    ensures Linked(DeliverFlight(s, i))
  {
    hide R.Sound, G.Sound, Reserved, Output, InFlight, FlightOk, NoncesOk, G.Next;
    if i < |s.flights| {
      var f, m := s.flights[i], DeliverFlight(s, i);
      var q := G.Request(f.assertion, f.tokens, Seconds(s.clock) - s.gateway.clock);
      G.NextSound(s.gateway, q);
      GatewayNext(s.gateway, q);
      FlightBound(s, f);
      DeliverNonces(s, i);
      forall t | t in m.history.issued
        ensures Reserved(m.gateway.accepted, m.history.issued[t].run) + InFlight(m.flights, t)
                <= Output(m.history.grants, t)
      {
        DeliverCounted(s, i, t);
      }
      DeliverRows(s, i);
    }
  }

  lemma FlightBound(s: System, f: Flight)
    requires Linked(s) && f in s.flights
    ensures f.assertion.run in s.history.registry.runs
  {
    assert FlightOk(f, s.history, s.clock);
  }

  lemma DeliverNonces(s: System, i: nat)
    requires Linked(s) && i < |s.flights|
    ensures NoncesOk(DeliverFlight(s, i))
  {
    hide R.Sound, G.Sound, Reserved, Output, InFlight, RowsOk, G.Next;
    var f := s.flights[i];
    GatewayNext(s.gateway, G.Request(f.assertion, f.tokens, Seconds(s.clock) - s.gateway.clock));
    assert FlightOk(f, s.history, s.clock);
  }

  lemma DeliverRows(s: System, i: nat)
    requires Linked(s) && i < |s.flights|
    ensures RowsOk(DeliverFlight(s, i))
  {
    hide R.Sound, G.Sound, Reserved, Output, InFlight, NoncesOk, G.Next;
    var f, m := s.flights[i], DeliverFlight(s, i);
    GatewayNext(s.gateway, G.Request(f.assertion, f.tokens, Seconds(s.clock) - s.gateway.clock));
    assert FlightOk(f, s.history, s.clock);
    forall t, r | t in m.history.issued && r in m.gateway.ledger.runs && m.history.issued[t].run == r
      ensures m.gateway.ledger.runs[r].alias == m.history.issued[t].alias
      ensures m.gateway.ledger.runs[r].ceiling == m.history.issued[t].maxTokens.output
    {
      if r == f.assertion.run {
        OneToken(s.history, t, f.token);
      }
    }
  }

  lemma NextLinked(s: System, step: Step)
    requires Linked(s)
    ensures Linked(Next(s, step))
  {
    hide Linked, R.Next, ForwardRequest, DeliverFlight;
    match step {
      case Wait(time) => WaitLinked(s, time);
      case Register(token, b) => HistoryLinked(s, R.RegisterStep(token, b, s.clock));
      case Forward(token, model, input, maximum, lease) => ForwardLinked(s, token, model, input, maximum, lease);
      case Deliver(i) => DeliverLinked(s, i);
      case Lose(i) =>
        if i < |s.flights| {
          LoseLinked(s, i);
        }
      case Revoke(token) => HistoryLinked(s, R.RevokeStep(token));
    }
  }

  lemma InitLinked(maxActive: nat, maxRecords: nat, rates: Rates, alias: nat, gatewayRecords: nat, retention: nat)
    requires retention >= G.MIN_RETENTION
    ensures Linked(Init(maxActive, maxRecords, rates, alias, gatewayRecords, retention))
  {
  }

  lemma {:induction false} AlwaysLinked(s: System, steps: seq<Step>)
    requires Linked(s)
    ensures Linked(Run(s, steps))
  {
    hide Linked, Next;
    if steps != [] {
      AlwaysLinked(s, steps[..|steps| - 1]);
      NextLinked(Run(s, steps[..|steps| - 1]), steps[|steps| - 1]);
    }
  }

  // In every reachable state, with any requests in flight or lost: for every scope ever issued, the
  // tokens reserved at the gateway for its run plus those in flight are within the scope's output
  // counter, and that within its limit.
  lemma NeverOverspent(s: System, steps: seq<Step>, t: nat)
    requires Linked(s)
    ensures var m := Run(s, steps);
            t in m.history.issued ==>
              var b := m.history.issued[t];
              && t in m.history.registry.scopes
              && Reserved(m.gateway.accepted, b.run) + InFlight(m.flights, t)
                 <= m.history.registry.scopes[t].tokens.output <= b.maxTokens.output
              && (b.run in m.gateway.ledger.runs ==>
                    m.gateway.ledger.runs[b.run].used <= Reserved(m.gateway.accepted, b.run))
  {
    hide Next, Reserved, InFlight, R.GrantsOf, R.Spent, G.Sound, NoncesOk;
    AlwaysLinked(s, steps);
    var m := Run(s, steps);
    if t in m.history.issued {
      assert R.ScopeOk(m.history.registry.scopes[t], R.Issued(m.history, t), R.GrantsOf(m.history.grants, t));
      if m.history.issued[t].run in m.gateway.ledger.runs {
        RowUsed(m.gateway, m.history.issued[t].run);
      }
    }
  }

  // ---------------------------------------------------------------- what it can cost

  // A request is forwarded exactly for the model of a live scope whose lease holds, within the limit of one
  // request and what is left of the scope; it then carries the scope's binding, a lifetime that outlasts
  // neither the scope nor five minutes, and a nonce of its own.
  lemma ForwardsExactly(s: System, token: nat, b: R.Binding, model: nat, input: nat, maximum: int, lease: bool)
    requires R.LiveAt(s.history.registry, token, b, s.clock)
    ensures var m := Next(s, Forward(token, model, input, maximum, lease));
            var scope := s.history.registry.scopes[token];
            var sends := && lease && model == b.alias && 1 <= maximum <= 100_000 && 0 < input
                         && 0 < Cost(s.rates, Tokens(input, maximum))
                         && scope.inferences < b.maxInferences && scope.tokens.input + input <= b.maxTokens.input
                         && scope.tokens.output + maximum <= b.maxTokens.output
                         && scope.cost + Cost(s.rates, Tokens(input, maximum)) <= b.maxCost;
            && m.gateway == s.gateway && m.clock == s.clock
            && (!sends ==> m.flights == s.flights && m.history.grants == s.history.grants)
            && (sends ==>
                  var left := if b.expiresAt < s.clock + 300_000_000 then b.expiresAt else s.clock + 300_000_000;
                  var a := G.Assertion(b.run, b.alias, b.maxTokens.output, left / 1_000_000, |s.history.grants|);
                  var asked := Tokens(input, maximum);
                  && m.flights == s.flights + [Flight(token, a, maximum)]
                  && m.history.grants == s.history.grants + [R.Grant(token, asked, Cost(s.rates, asked))])
  {
    hide Cost;
    var r := s.history.registry;
    if lease {
      assert R.Authorize(r, token, s.clock, lease) == (r, Some(b));
      R.ReservesExactly(r, token, b, input, maximum, if maximum > 0 then Cost(s.rates, Tokens(input, maximum)) else 0,
                        s.clock, lease);
    }
  }


  function Ceilings(grants: seq<R.Grant>): (r: seq<Tokens>)
    ensures |r| == |grants|
    ensures forall i | 0 <= i < |grants| :: r[i] == grants[i].ceiling
  {
    seq(|grants|, i requires 0 <= i < |grants| => grants[i].ceiling)
  }

  lemma {:induction false} SpentCost(rates: Rates, grants: seq<R.Grant>)
    requires forall g | g in grants :: g.cost == Cost(rates, g.ceiling)
    ensures R.Spent(grants).cost == SumCosts(rates, Ceilings(grants))
  {
    if grants != [] {
      SpentCost(rates, grants[..|grants| - 1]);
      assert Ceilings(grants)[..|grants| - 1] == Ceilings(grants[..|grants| - 1]);
    }
  }

  lemma {:induction false} GrantsAmong(grants: seq<R.Grant>, token: nat, g: R.Grant)
    requires g in R.GrantsOf(grants, token)
    ensures g in grants
  {
    if g in R.GrantsOf(grants[..|grants| - 1], token) {
      GrantsAmong(grants[..|grants| - 1], token, g);
    }
  }

  // Whatever the granted inferences of a scope really use within their ceilings, its total, priced at
  // once, is within the cost limit of the binding.
  lemma CostBound(s: System, steps: seq<Step>, t: nat, used: seq<Tokens>)
    requires Linked(s) && t in Run(s, steps).history.issued
    requires var ceilings := Ceilings(R.GrantsOf(Run(s, steps).history.grants, t));
             |used| == |ceilings| && forall i | 0 <= i < |used| :: Covers(ceilings[i], used[i])
    ensures Cost(s.rates, Sum(used)) <= Run(s, steps).history.issued[t].maxCost
  {
    hide Next, Reserved, InFlight, R.GrantsOf, R.Spent, G.Sound, NoncesOk, Cost, Sum, SumCosts;
    AlwaysLinked(s, steps);
    RatesFixed(s, steps);
    var m := Run(s, steps);
    var grants := R.GrantsOf(m.history.grants, t);
    forall g | g in grants ensures g.cost == Cost(s.rates, g.ceiling) {
      GrantsAmong(m.history.grants, t, g);
    }
    SpentCost(s.rates, grants);
    AggregateCost(s.rates, Ceilings(grants), used);
    assert R.ScopeOk(m.history.registry.scopes[t], R.Issued(m.history, t), grants);
  }

  lemma {:induction false} RatesFixed(s: System, steps: seq<Step>)
    ensures Run(s, steps).rates == s.rates
  {
    if steps != [] {
      RatesFixed(s, steps[..|steps| - 1]);
    }
  }

  // ---------------------------------------------------------------- a live scope can be refused

  const TEN_MINUTES := R.Binding(7, 1, 2, 3, 600 * R.SECOND, 8, Tokens(1000, 1000), 1000)

  // The first request of the scope, sent and accepted at time zero.
  function FirstRequest(): System {
    Next(Next(Next(Init(1, 100, Rates(1, 1), 1, 100, G.MIN_RETENTION), Register(5, TEN_MINUTES)),
              Forward(5, 1, 10, 10, true)), Deliver(0))
  }

  lemma FirstSent()
    ensures var s := Next(Init(1, 100, Rates(1, 1), 1, 100, G.MIN_RETENTION), Register(5, TEN_MINUTES));
            && s.history.registry == R.Registry(1, 100, map[5 := R.Fresh(Some(TEN_MINUTES))], {7})
            && s.history.grants == []
            && s.flights == [] && s.gateway == Init(1, 100, Rates(1, 1), 1, 100, G.MIN_RETENTION).gateway
            && s.clock == 0 && s.rates == Rates(1, 1)
  {
    assert R.ActiveScopes(R.Expire(map[], 0)) == {};
  }

  lemma FirstAccepted()
    ensures var s := FirstRequest();
            && s.history.registry == R.Registry(1, 100, map[5 := R.Scope(Some(TEN_MINUTES), 1, Tokens(10, 10), 1)], {7})
            && |s.history.grants| == 1 && s.flights == [] && s.clock == 0 && s.rates == Rates(1, 1)
            && s.gateway.ledger
               == G.Ledger(100, G.MIN_RETENTION, map[7 := G.Row(1, 1000, 10, 300, G.MIN_RETENTION)], map[0 := 300])
  {
    hide R.Register;
    FirstSent();
    var s := Next(Init(1, 100, Rates(1, 1), 1, 100, G.MIN_RETENTION), Register(5, TEN_MINUTES));
    assert Next(s, Forward(5, 1, 10, 10, true)).flights == [Flight(5, G.Assertion(7, 1, 1000, 300, 0), 10)];
    assert G.Purge(s.gateway.ledger, 0) == s.gateway.ledger;
  }

  lemma FirstLinked()
    ensures Linked(Next(Next(FirstRequest(), Wait(301 * R.SECOND)), Forward(5, 1, 10, 10, true)))
  {
    hide Linked, Next;
    var s := Init(1, 100, Rates(1, 1), 1, 100, G.MIN_RETENTION);
    InitLinked(1, 100, Rates(1, 1), 1, 100, G.MIN_RETENTION);
    NextLinked(s, Register(5, TEN_MINUTES));
    NextLinked(Next(s, Register(5, TEN_MINUTES)), Forward(5, 1, 10, 10, true));
    NextLinked(Next(Next(s, Register(5, TEN_MINUTES)), Forward(5, 1, 10, 10, true)), Deliver(0));
    NextLinked(FirstRequest(), Wait(301 * R.SECOND));
    NextLinked(Next(FirstRequest(), Wait(301 * R.SECOND)), Forward(5, 1, 10, 10, true));
  }

  // A scope may live for ten minutes but an assertion for five: after a silence of more than five
  // minutes the gateway takes the run for retired, though the scope is live and has budget left.
  lemma LiveScopeRetired()
    ensures var m := Next(Next(FirstRequest(), Wait(301 * R.SECOND)), Forward(5, 1, 10, 10, true));
            && Linked(m) && |m.flights| == 1 && m.flights[0].assertion.expiresAt == 600
            && R.Authorize(m.history.registry, 5, m.clock, true).1 == Some(TEN_MINUTES)
            && G.Prepare(m.gateway.ledger, 1, m.flights[0].assertion, 10, Seconds(m.clock)) == Err(G.Retired)
  {
    hide Linked, FirstRequest;
    FirstLinked();
    FirstAccepted();
    var m := Next(Next(FirstRequest(), Wait(301 * R.SECOND)), Forward(5, 1, 10, 10, true));
    assert m.flights == [Flight(5, G.Assertion(7, 1, 1000, 600, 1), 10)];
    assert G.Purge(m.gateway.ledger, 301).nonces == map[];
  }
}
