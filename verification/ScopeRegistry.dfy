// Bounded, revocable leases on inference authority, with tombstones that are never evicted.
module ScopeRegistry {
  import opened Wrappers
  import opened Pricing

  // `rest` stands for the fields of a binding that no decision looks at.
  datatype Binding = Binding(run: nat, alias: nat, capability: nat, rest: nat, expiresAt: int,
                             maxInferences: nat, maxTokens: Tokens, maxCost: nat)

  // A scope without a binding is a tombstone.
  datatype Scope = Scope(binding: Option<Binding>, inferences: nat, tokens: Tokens, cost: nat)

  // Scopes by digest of their token, and the digests of the runs that ever had one.
  datatype Registry = Registry(maxActive: nat, maxRecords: nat, scopes: map<nat, Scope>, runs: set<nat>)

  datatype Outcome = Accepted | Rejected | BudgetExhausted | CapacityExhausted

  const SECOND: int := 1_000_000
  const MAX_LIFETIME: int := 600 * SECOND
  const MAX_INFERENCES: nat := 1_000
  const MAX_TOKENS := Tokens(1_000_000, 100_000)
  const MAX_COST: nat := 1_000_000_000

  predicate BindingOk(b: Binding, now: int) {
    && now < b.expiresAt <= now + MAX_LIFETIME
    && 1 <= b.maxInferences <= MAX_INFERENCES
    && 1 <= b.maxTokens.input <= MAX_TOKENS.input && 1 <= b.maxTokens.output <= MAX_TOKENS.output
    && 1 <= b.maxCost <= MAX_COST
  }

  function Clear(s: Scope): Scope {
    s.(binding := None)
  }

  function Expired(s: Scope, now: int): Scope {
    if s.binding.Some? && s.binding.value.expiresAt <= now then Clear(s) else s
  }

  function Expire(scopes: map<nat, Scope>, now: int): map<nat, Scope> {
    map t | t in scopes :: Expired(scopes[t], now)
  }

  function ActiveScopes(scopes: map<nat, Scope>): set<nat> {
    set t | t in scopes && scopes[t].binding.Some?
  }

  function Fresh(b: Option<Binding>): Scope {
    Scope(b, 0, Tokens(0, 0), 0)
  }

  // Expired scopes are cleared even when the registration is then refused.
  function Register(r: Registry, token: nat, b: Binding, now: int): (Registry, Outcome) {
    var swept := r.(scopes := Expire(r.scopes, now));
    if !BindingOk(b, now) then (swept, Rejected)
    else if token in swept.scopes then (swept, if swept.scopes[token].binding == Some(b) then Accepted else Rejected)
    else if b.run in r.runs then (swept, Rejected)
    else if |swept.scopes| >= r.maxRecords || |ActiveScopes(swept.scopes)| >= r.maxActive
         then (swept, CapacityExhausted)
    else (swept.(scopes := swept.scopes[token := Fresh(Some(b))], runs := r.runs + {b.run}), Accepted)
  }

  // `lease` is the answer of the lease check, if there is one.
  function Authorize(r: Registry, token: nat, now: int, lease: bool): (Registry, Option<Binding>) {
    if token !in r.scopes || r.scopes[token].binding.None? then (r, None)
    else if r.scopes[token].binding.value.expiresAt > now && lease then (r, r.scopes[token].binding)
    else (r.(scopes := r.scopes[token := Clear(r.scopes[token])]), None)
  }

  predicate Fits(s: Scope, b: Binding, ceiling: Tokens, cost: nat) {
    && s.inferences + 1 <= b.maxInferences
    && Covers(b.maxTokens, Plus(s.tokens, ceiling))
    && s.cost + cost <= b.maxCost
  }

  function ReserveInference(r: Registry, token: nat, input: int, output: int, cost: int, now: int,
                            lease: bool): (Registry, Outcome) {
    if input <= 0 || output <= 0 || cost <= 0 then (r, BudgetExhausted)
    else
      var (checked, b) := Authorize(r, token, now, lease);
      if b.None? then (checked, Rejected)
      else
        var s := checked.scopes[token];
        var ceiling := Tokens(input, output);
        if !Fits(s, b.value, ceiling, cost) then (checked, BudgetExhausted)
        else (checked.(scopes := checked.scopes[token := Scope(s.binding, s.inferences + 1, Plus(s.tokens, ceiling),
                                                               s.cost + cost)]), Accepted)
  }

  // Revoking an unknown token leaves a tombstone: its registration may still be on the way.
  function Revoke(r: Registry, token: nat): (Registry, Outcome) {
    if token in r.scopes then (r.(scopes := r.scopes[token := Clear(r.scopes[token])]), Accepted)
    else if |r.scopes| >= r.maxRecords then (r, CapacityExhausted)
    else (r.(scopes := r.scopes[token := Fresh(None)]), Accepted)
  }

  // ---------------------------------------------------------------- the registry with its history

  datatype Grant = Grant(token: nat, ceiling: Tokens, cost: nat)

  // `issued` remembers the binding of every token that was ever registered, `grants` every
  // inference that was ever reserved.
  datatype History = History(registry: Registry, issued: map<nat, Binding>, grants: seq<Grant>)

  datatype Step =
    | RegisterStep(token: nat, binding: Binding, now: int)
    | AuthorizeStep(token: nat, now: int, lease: bool)
    | ReserveStep(token: nat, input: int, output: int, cost: int, now: int, lease: bool)
    | RevokeStep(token: nat)

  function Next(h: History, step: Step): History {
    match step
    case RegisterStep(token, b, now) =>
      var (r, outcome) := Register(h.registry, token, b, now);
      h.(registry := r,
         issued := if outcome == Accepted && token !in h.registry.scopes then h.issued[token := b] else h.issued)
    case AuthorizeStep(token, now, lease) => h.(registry := Authorize(h.registry, token, now, lease).0)
    case ReserveStep(token, input, output, cost, now, lease) =>
      var (r, outcome) := ReserveInference(h.registry, token, input, output, cost, now, lease);
      h.(registry := r,
         grants := if outcome == Accepted then h.grants + [Grant(token, Tokens(input, output), cost)] else h.grants)
    case RevokeStep(token) => h.(registry := Revoke(h.registry, token).0)
  }

  function Run(h: History, steps: seq<Step>): History {
    if steps == [] then h else Next(Run(h, steps[..|steps| - 1]), steps[|steps| - 1])
  }

  function Init(maxActive: nat, maxRecords: nat): History {
    History(Registry(maxActive, maxRecords, map[], {}), map[], [])
  }

  // What was granted to a token, in order.
  function GrantsOf(grants: seq<Grant>, token: nat): seq<Grant> {
    if grants == [] then []
    else GrantsOf(grants[..|grants| - 1], token)
         + (if grants[|grants| - 1].token == token then [grants[|grants| - 1]] else [])
  }

  // The counters after a series of grants.
  function Spent(grants: seq<Grant>): Scope {
    if grants == [] then Fresh(None)
    else
      var s, g := Spent(grants[..|grants| - 1]), grants[|grants| - 1];
      Scope(None, s.inferences + 1, Plus(s.tokens, g.ceiling), s.cost + g.cost)
  }

  predicate Within(s: Scope, b: Binding) {
    s.inferences <= b.maxInferences && Covers(b.maxTokens, s.tokens) && s.cost <= b.maxCost
  }

  // A scope shows its binding or none, and counts exactly what was granted, within the binding.
  predicate ScopeOk(s: Scope, issued: Option<Binding>, granted: seq<Grant>) {
    && (s.binding.Some? ==> s.binding == issued)
    && Clear(s) == Spent(granted)
    && (if issued.Some? then Within(s, issued.value) else granted == [])
  }

  function Issued(h: History, token: nat): Option<Binding> {
    if token in h.issued then Some(h.issued[token]) else None
  }

  predicate ScopesOk(h: History) {
    && (forall t | t in h.issued :: t in h.registry.scopes)
    && (forall g | g in h.grants :: g.token in h.registry.scopes)
    && (forall t | t in h.registry.scopes :: ScopeOk(h.registry.scopes[t], Issued(h, t), GrantsOf(h.grants, t)))
  }

  // A run is bound to at most one token, ever.
  predicate RunsOk(h: History) {
    && (forall t | t in h.issued :: h.issued[t].run in h.registry.runs)
    && (forall t, u | t in h.issued && u in h.issued && t != u :: h.issued[t].run != h.issued[u].run)
  }

  predicate WithinCapacity(r: Registry) {
    |r.scopes| <= r.maxRecords && |ActiveScopes(r.scopes)| <= r.maxActive
  }

  predicate Sound(h: History) {
    ScopesOk(h) && RunsOk(h) && WithinCapacity(h.registry)
  }

  // What no operation undoes: a record stays, its binding can only be cleared, its issue stands.
  predicate Extends(h: History, k: History) {
    && (forall t | t in h.registry.scopes ::
          && t in k.registry.scopes
          && (k.registry.scopes[t].binding == h.registry.scopes[t].binding || k.registry.scopes[t].binding.None?)
          && Issued(k, t) == Issued(h, t))
    && h.grants <= k.grants
    && h.registry.runs <= k.registry.runs
    && k.registry.maxActive == h.registry.maxActive && k.registry.maxRecords == h.registry.maxRecords
  }

  lemma ExtendsOn(h: History, k: History, l: History)
    requires Extends(h, k) && Extends(k, l)
    ensures Extends(h, l)
  {
  }

  // Clearing bindings, of any scopes.
  lemma ClearsSound(h: History, scopes: map<nat, Scope>)
    requires Sound(h) && scopes.Keys == h.registry.scopes.Keys
    requires forall t | t in scopes :: scopes[t] == h.registry.scopes[t] || scopes[t] == Clear(h.registry.scopes[t])
    ensures Sound(h.(registry := h.registry.(scopes := scopes)))
            && Extends(h, h.(registry := h.registry.(scopes := scopes)))
  {
    hide Spent, GrantsOf;
    var k := h.(registry := h.registry.(scopes := scopes));
    Subsets(ActiveScopes(scopes), ActiveScopes(h.registry.scopes));
    assert |scopes.Keys| == |h.registry.scopes.Keys|;
    forall t | t in scopes ensures ScopeOk(scopes[t], Issued(k, t), GrantsOf(k.grants, t)) {
      assert ScopeOk(h.registry.scopes[t], Issued(h, t), GrantsOf(h.grants, t));
      assert Issued(k, t) == Issued(h, t);
    }
  }

  lemma {:induction false} NotGranted(grants: seq<Grant>, token: nat)
    requires forall g | g in grants :: g.token != token
    ensures GrantsOf(grants, token) == []
  {
    if grants != [] {
      NotGranted(grants[..|grants| - 1], token);
    }
  }

  // A new record, for a token not seen before.
  function Record(h: History, token: nat, b: Option<Binding>): History {
    h.(registry := h.registry.(scopes := h.registry.scopes[token := Fresh(b)],
                               runs := if b.Some? then h.registry.runs + {b.value.run} else h.registry.runs),
       issued := if b.Some? then h.issued[token := b.value] else h.issued)
  }

  lemma RecordScopes(h: History, token: nat, b: Option<Binding>)
    requires ScopesOk(h) && token !in h.registry.scopes
    ensures ScopesOk(Record(h, token, b))
  {
    hide GrantsOf, ScopeOk;
    var k := Record(h, token, b);
    NotGranted(h.grants, token);
    FreshOk(b);
    forall t | t in k.registry.scopes ensures ScopeOk(k.registry.scopes[t], Issued(k, t), GrantsOf(k.grants, t)) {
      if t != token {
        assert ScopeOk(h.registry.scopes[t], Issued(h, t), GrantsOf(h.grants, t));
      }
    }
  }

  lemma FreshOk(b: Option<Binding>)
    ensures ScopeOk(Fresh(b), b, [])
  {
  }

  lemma OneMore(scopes: map<nat, Scope>, token: nat, s: Scope)
    requires token !in scopes
    ensures |scopes[token := s]| == |scopes| + 1
    ensures |ActiveScopes(scopes[token := s])| == |ActiveScopes(scopes)| + (if s.binding.Some? then 1 else 0)
  {
    var more := scopes[token := s];
    assert more.Keys == scopes.Keys + {token};
    if s.binding.Some? {
      assert ActiveScopes(more) == ActiveScopes(scopes) + {token};
    } else {
      assert ActiveScopes(more) == ActiveScopes(scopes);
    }
  }

  lemma RecordRuns(h: History, token: nat, b: Option<Binding>)
    requires RunsOk(h) && (b.Some? ==> b.value.run !in h.registry.runs)
    ensures RunsOk(Record(h, token, b))
  {
  }

  lemma NotIssued(h: History, token: nat)
    requires ScopesOk(h) && token !in h.registry.scopes
    ensures token !in h.issued
  {
  }

  lemma RecordSound(h: History, token: nat, b: Option<Binding>)
    requires Sound(h) && token !in h.registry.scopes && |h.registry.scopes| < h.registry.maxRecords
    requires b.Some? ==> b.value.run !in h.registry.runs && |ActiveScopes(h.registry.scopes)| < h.registry.maxActive
    ensures Sound(Record(h, token, b)) && Extends(h, Record(h, token, b))
  {
    hide GrantsOf, ScopeOk, ScopesOk, RunsOk, ActiveScopes;
    assert token !in h.issued by {
      NotIssued(h, token);
    }
    RecordScopes(h, token, b);
    RecordRuns(h, token, b);
    OneMore(h.registry.scopes, token, Fresh(b));
  }

  lemma RegisterSound(h: History, token: nat, b: Binding, now: int)
    requires Sound(h)
    ensures Sound(Next(h, RegisterStep(token, b, now))) && Extends(h, Next(h, RegisterStep(token, b, now)))
  {
    hide Sound, Extends, ActiveScopes, BindingOk;
    var swept := h.(registry := h.registry.(scopes := Expire(h.registry.scopes, now)));
    ClearsSound(h, swept.registry.scopes);
    if Register(h.registry, token, b, now).1 == Accepted && token !in h.registry.scopes {
      RecordSound(swept, token, Some(b));
      ExtendsOn(h, swept, Next(h, RegisterStep(token, b, now)));
    }
  }

  lemma ExtendsSelf(h: History)
    ensures Extends(h, h)
  {
  }

  lemma AuthorizeSound(h: History, token: nat, now: int, lease: bool)
    requires Sound(h)
    ensures var k := h.(registry := Authorize(h.registry, token, now, lease).0); Sound(k) && Extends(h, k)
  {
    hide Sound, Extends;
    ExtendsSelf(h);
    ClearsSound(h, Authorize(h.registry, token, now, lease).0.scopes);
  }

  lemma SpentAppend(grants: seq<Grant>, g: Grant)
    ensures var s := Spent(grants);
            Spent(grants + [g]) == Scope(None, s.inferences + 1, Plus(s.tokens, g.ceiling), s.cost + g.cost)
  {
    assert (grants + [g])[..|grants|] == grants;
  }

  lemma GrantAppend(grants: seq<Grant>, g: Grant, token: nat)
    ensures GrantsOf(grants + [g], token) == if g.token == token then GrantsOf(grants, token) + [g]
                                             else GrantsOf(grants, token)
  {
    assert (grants + [g])[..|grants|] == grants;
  }

  function Granted(h: History, token: nat, ceiling: Tokens, cost: nat): History
    requires token in h.registry.scopes
  {
    var s := h.registry.scopes[token];
    h.(registry := h.registry.(scopes := h.registry.scopes[token := Scope(s.binding, s.inferences + 1,
                                                                      Plus(s.tokens, ceiling), s.cost + cost)]),
       grants := h.grants + [Grant(token, ceiling, cost)])
  }

  lemma GrantScopes(h: History, token: nat, ceiling: Tokens, cost: nat)
    requires ScopesOk(h) && token in h.registry.scopes && h.registry.scopes[token].binding.Some?
    requires Fits(h.registry.scopes[token], h.registry.scopes[token].binding.value, ceiling, cost)
    ensures ScopesOk(Granted(h, token, ceiling, cost))
  {
    hide GrantsOf, Spent;
    var k, g := Granted(h, token, ceiling, cost), Grant(token, ceiling, cost);
    forall t | t in k.registry.scopes ensures ScopeOk(k.registry.scopes[t], Issued(k, t), GrantsOf(k.grants, t)) {
      assert ScopeOk(h.registry.scopes[t], Issued(h, t), GrantsOf(h.grants, t));
      GrantAppend(h.grants, g, t);
      SpentAppend(GrantsOf(h.grants, t), g);
    }
  }

  lemma GrantSound(h: History, token: nat, ceiling: Tokens, cost: nat)
    requires Sound(h) && token in h.registry.scopes && h.registry.scopes[token].binding.Some?
    requires Fits(h.registry.scopes[token], h.registry.scopes[token].binding.value, ceiling, cost)
    ensures Sound(Granted(h, token, ceiling, cost)) && Extends(h, Granted(h, token, ceiling, cost))
  {
    hide ScopesOk, Fits;
    var k := Granted(h, token, ceiling, cost);
    GrantScopes(h, token, ceiling, cost);
    assert ActiveScopes(k.registry.scopes) == ActiveScopes(h.registry.scopes);
    assert k.registry.scopes.Keys == h.registry.scopes.Keys;
  }

  lemma ReserveSound(h: History, token: nat, input: int, output: int, cost: int, now: int, lease: bool)
    requires Sound(h)
    ensures var k := Next(h, ReserveStep(token, input, output, cost, now, lease)); Sound(k) && Extends(h, k)
  {
    hide Sound, Extends, Fits;
    ExtendsSelf(h);
    var k := Next(h, ReserveStep(token, input, output, cost, now, lease));
    AuthorizeSound(h, token, now, lease);
    var checked := h.(registry := Authorize(h.registry, token, now, lease).0);
    if ReserveInference(h.registry, token, input, output, cost, now, lease).1 == Accepted {
      GrantSound(checked, token, Tokens(input, output), cost);
      ExtendsOn(h, checked, k);
    }
  }

  lemma RevokeSound(h: History, token: nat)
    requires Sound(h)
    ensures Sound(Next(h, RevokeStep(token))) && Extends(h, Next(h, RevokeStep(token)))
  {
    hide Sound, Extends;
    ExtendsSelf(h);
    var k := Next(h, RevokeStep(token));
    if token in h.registry.scopes {
      ClearsSound(h, k.registry.scopes);
    } else if |h.registry.scopes| < h.registry.maxRecords {
      RecordSound(h, token, None);
    }
  }

  lemma NextSound(h: History, step: Step)
    requires Sound(h)
    ensures Sound(Next(h, step)) && Extends(h, Next(h, step))
  {
    hide Sound, Extends;
    match step {
      case RegisterStep(token, b, now) => RegisterSound(h, token, b, now);
      case AuthorizeStep(token, now, lease) => AuthorizeSound(h, token, now, lease);
      case ReserveStep(token, input, output, cost, now, lease) =>
        ReserveSound(h, token, input, output, cost, now, lease);
      case RevokeStep(token) => RevokeSound(h, token);
    }
  }

  lemma {:induction false} AlwaysSound(h: History, steps: seq<Step>)
    requires Sound(h)
    ensures Sound(Run(h, steps)) && Extends(h, Run(h, steps))
  {
    hide Sound, Extends, Next;
    ExtendsSelf(h);
    if steps != [] {
      var before := Run(h, steps[..|steps| - 1]);
      AlwaysSound(h, steps[..|steps| - 1]);
      NextSound(before, steps[|steps| - 1]);
      ExtendsOn(h, before, Next(before, steps[|steps| - 1]));
    }
  }

  lemma InitSound(maxActive: nat, maxRecords: nat)
    ensures Sound(Init(maxActive, maxRecords))
  {
  }

  // Over any order of operations: records and active scopes stay within capacity, a run is bound to
  // at most one token, and the counters are the sums of what was granted, within the binding.
  lemma AuthorityBounded(maxActive: nat, maxRecords: nat, steps: seq<Step>)
    ensures var h := Run(Init(maxActive, maxRecords), steps);
            && |h.registry.scopes| <= maxRecords && |ActiveScopes(h.registry.scopes)| <= maxActive
            && (forall t, u | t in h.issued && u in h.issued && t != u :: h.issued[t].run != h.issued[u].run)
            && (forall t | t in h.issued ::
                  && t in h.registry.scopes
                  && var s := h.registry.scopes[t];
                     (s.binding.Some? ==> s.binding.value == h.issued[t]) && Clear(s) == Spent(GrantsOf(h.grants, t))
                       && Within(s, h.issued[t]))
  {
    hide Next, GrantsOf, Spent, ActiveScopes;
    InitSound(maxActive, maxRecords);
    AlwaysSound(Init(maxActive, maxRecords), steps);
    var h := Run(Init(maxActive, maxRecords), steps);
    forall t | t in h.issued
      ensures t in h.registry.scopes
      ensures var s := h.registry.scopes[t];
              (s.binding.Some? ==> s.binding.value == h.issued[t]) && Clear(s) == Spent(GrantsOf(h.grants, t))
                && Within(s, h.issued[t])
    {
      assert ScopeOk(h.registry.scopes[t], Issued(h, t), GrantsOf(h.grants, t));
    }
  }

  // A cleared token is never authorized and never registered again, and nothing more is reserved on it.
  lemma NeverResurrected(h: History, steps: seq<Step>, token: nat, b: Binding, now: int, lease: bool, input: int,
                         output: int, cost: int)
    requires Sound(h) && token in h.registry.scopes && h.registry.scopes[token].binding.None?
    ensures var r := Run(h, steps).registry;
            && Authorize(r, token, now, lease).1 == None
            && Register(r, token, b, now).1 == Rejected
            && ReserveInference(r, token, input, output, cost, now, lease).1
               == if input <= 0 || output <= 0 || cost <= 0 then BudgetExhausted else Rejected
  {
    hide Sound, BindingOk;
    AlwaysSound(h, steps);
  }

  // Once a revoke is accepted, in any state, the token has no authority in any later state: not even
  // if it was revoked before it was registered.
  lemma RevokedForGood(h: History, token: nat, steps: seq<Step>, b: Binding, now: int, lease: bool)
    requires Sound(h) && Revoke(h.registry, token).1 == Accepted
    ensures var r := Run(Next(h, RevokeStep(token)), steps).registry;
            Authorize(r, token, now, lease).1 == None && Register(r, token, b, now).1 == Rejected
  {
    hide Sound, BindingOk;
    RevokeSound(h, token);
    NeverResurrected(Next(h, RevokeStep(token)), steps, token, b, now, lease, 1, 1, 1);
  }

  // A lease ends within ten minutes of its registration, in every run.
  lemma LeaseEnds(h: History, token: nat, b: Binding, now: int, steps: seq<Step>, later: int, lease: bool)
    requires Sound(h) && token !in h.registry.scopes && Register(h.registry, token, b, now).1 == Accepted
    requires now + MAX_LIFETIME <= later
    ensures Authorize(Run(Next(h, RegisterStep(token, b, now)), steps).registry, token, later, lease).1 == None
  {
    hide Sound, Next, Extends;
    var m := Next(h, RegisterStep(token, b, now));
    RegisterSound(h, token, b, now);
    Registered(h, token, b, now);
    AlwaysSound(m, steps);
    BindingStays(m, Run(m, steps), token);
  }

  lemma Registered(h: History, token: nat, b: Binding, now: int)
    requires token !in h.registry.scopes && Register(h.registry, token, b, now).1 == Accepted
    ensures var m := Next(h, RegisterStep(token, b, now)).registry;
            token in m.scopes && m.scopes[token].binding == Some(b) && b.expiresAt <= now + MAX_LIFETIME
  {
  }

  lemma BindingStays(h: History, k: History, token: nat)
    requires Extends(h, k) && token in h.registry.scopes
    ensures token in k.registry.scopes
    ensures k.registry.scopes[token].binding == h.registry.scopes[token].binding
            || k.registry.scopes[token].binding.None?
  {
  }

  // The scope still has its binding.
  predicate LiveAt(r: Registry, token: nat, b: Binding, now: int) {
    token in r.scopes && r.scopes[token].binding == Some(b) && now < b.expiresAt
  }

  ghost function LiveScopes(r: Registry, now: int): set<nat> {
    set t | t in r.scopes && exists b :: LiveAt(r, t, b, now)
  }

  // A registration is accepted exactly if it repeats a live one, or is the first of the token and of the
  // run and there is room, and stays within the limits; then exactly this binding is live. The other
  // scopes keep theirs as long as they last.
  lemma RegistersExactly(r: Registry, token: nat, b: Binding, now: int)
    ensures var (m, outcome) := Register(r, token, b, now);
            && (outcome == Accepted <==>
                  && now < b.expiresAt <= now + 600_000_000 && 1 <= b.maxInferences <= 1_000
                  && 1 <= b.maxCost <= 1_000_000_000
                  && 1 <= b.maxTokens.input <= 1_000_000 && 1 <= b.maxTokens.output <= 100_000
                  && (|| LiveAt(r, token, b, now)
                      || (&& token !in r.scopes && b.run !in r.runs && |r.scopes| < r.maxRecords
                          && |LiveScopes(r, now)| < r.maxActive)))
            && (outcome != Accepted ==>
                  outcome == if BindingOk(b, now) && token !in r.scopes && b.run !in r.runs then CapacityExhausted
                             else Rejected)
            && (outcome == Accepted ==>
                  && LiveAt(m, token, b, now) && (token !in r.scopes ==> m.runs == r.runs + {b.run})
                  && forall at, lease ::
                       Authorize(m, token, at, lease).1 == if at < b.expiresAt && lease then Some(b) else None)
            && (forall t, c | t != token :: LiveAt(m, t, c, now) <==> LiveAt(r, t, c, now))
  {
    var swept := Expire(r.scopes, now);
    assert swept.Keys == r.scopes.Keys;
    assert |swept.Keys| == |swept| && |r.scopes.Keys| == |r.scopes|;
    assert LiveScopes(r, now) == ActiveScopes(swept) by {
      forall t | t in ActiveScopes(swept) ensures t in LiveScopes(r, now) {
        assert LiveAt(r, t, r.scopes[t].binding.value, now);
      }
    }
  }

  // An inference is granted exactly if it asks for something, the scope is live and its lease holds, and
  // with it every counter stays within the binding; then exactly the counters of this scope grow by it.
  lemma ReservesExactly(r: Registry, token: nat, b: Binding, input: int, output: int, cost: int, now: int, lease: bool)
    requires LiveAt(r, token, b, now)
    ensures var (m, outcome) := ReserveInference(r, token, input, output, cost, now, lease);
            var s := r.scopes[token];
            var fits := && s.inferences < b.maxInferences && s.tokens.input + input <= b.maxTokens.input
                        && s.tokens.output + output <= b.maxTokens.output && s.cost + cost <= b.maxCost;
            var asks := 0 < input && 0 < output && 0 < cost;
            && outcome == (if !asks then BudgetExhausted else if !lease then Rejected
                           else if fits then Accepted else BudgetExhausted)
            && (outcome == Accepted ==>
                  m == r.(scopes := r.scopes[token := s.(inferences := s.inferences + 1, cost := s.cost + cost,
                            tokens := Tokens(s.tokens.input + input, s.tokens.output + output))]))
            && (outcome != Accepted && lease ==> m == r)
  {
  }

  // A scope that is not live gets nothing, and no longer has a binding.
  lemma DeniesExactly(r: Registry, token: nat, input: int, output: int, cost: int, now: int, lease: bool)
    requires forall b :: !LiveAt(r, token, b, now)
    ensures var (m, outcome) := ReserveInference(r, token, input, output, cost, now, lease);
            && outcome == (if 0 < input && 0 < output && 0 < cost then Rejected else BudgetExhausted)
            && (outcome == Rejected && token in r.scopes ==>
                  token in m.scopes && m.scopes[token] == r.scopes[token].(binding := None))
            && (forall t | t in r.scopes && t != token :: t in m.scopes && m.scopes[t] == r.scopes[t])
  {
    if token in r.scopes && r.scopes[token].binding.Some? {
      assert !LiveAt(r, token, r.scopes[token].binding.value, now);
    }
  }

  // A revoke is accepted exactly if the token is known or there is room to remember it; then the token has
  // no binding, and every other scope is as it was.
  lemma ClearsExactly(r: Registry, token: nat)
    ensures var (m, outcome) := Revoke(r, token);
            if token in r.scopes || |r.scopes| < r.maxRecords then
              && outcome == Accepted && token in m.scopes && m.scopes[token].binding.None? && m.runs == r.runs
              && m.scopes.Keys == r.scopes.Keys + {token}
              && (forall t | t in r.scopes && t != token :: m.scopes[t] == r.scopes[t])
            else outcome == CapacityExhausted && m == r
  {
  }

  // An authorized token gets exactly the binding it was first registered with, before its expiry.
  lemma AuthorizedAsIssued(h: History, token: nat, now: int, lease: bool)
    requires Sound(h)
    ensures var b := Authorize(h.registry, token, now, lease).1;
            b.Some? <==> Issued(h, token).Some? && token in h.registry.scopes && h.registry.scopes[token].binding.Some?
                         && now < Issued(h, token).value.expiresAt && lease
    ensures var b := Authorize(h.registry, token, now, lease).1; b.Some? ==> b == Issued(h, token)
  {
    hide Spent, GrantsOf;
    if token in h.registry.scopes {
      assert ScopeOk(h.registry.scopes[token], Issued(h, token), GrantsOf(h.grants, token));
    }
  }

  // ---------------------------------------------------------------- in place

  class Scopes {
    const maxActive: nat
    const maxRecords: nat
    var scopes: map<nat, Scope>
    var runs: set<nat>

    function State(): Registry
      reads this
    {
      Registry(maxActive, maxRecords, scopes, runs)
    }

    constructor (maxActive: nat, maxRecords: nat)
      requires 1 <= maxActive <= maxRecords <= 1_000_000
      ensures State() == Init(maxActive, maxRecords).registry
    {
      this.maxActive, this.maxRecords := maxActive, maxRecords;
      scopes, runs := map[], {};
    }

    method ExpireScopes(now: int)
      modifies `scopes
      ensures scopes == Expire(old(scopes), now)
    {
      var left := scopes.Keys;
      while left != {}
        invariant left <= old(scopes).Keys && scopes.Keys == old(scopes).Keys
        invariant forall t | t in scopes ::
                    scopes[t] == if t in left then old(scopes)[t] else Expired(old(scopes)[t], now)
        decreases left
      {
        var t :| t in left;
        if scopes[t].binding.Some? && scopes[t].binding.value.expiresAt <= now {
          scopes := scopes[t := scopes[t].(binding := None)];
        }
        left := left - {t};
      }
    }

    method RegisterScope(token: nat, b: Binding, now: int) returns (outcome: Outcome)
      modifies this
      ensures (State(), outcome) == Register(old(State()), token, b, now)
    {
      ExpireScopes(now);
      if !BindingOk(b, now) {
        return Rejected;
      }
      if token in scopes {
        return if scopes[token].binding == Some(b) then Accepted else Rejected;
      }
      if b.run in runs {
        return Rejected;
      }
      if |scopes| >= maxRecords || |ActiveScopes(scopes)| >= maxActive {
        return CapacityExhausted;
      }
      scopes := scopes[token := Scope(Some(b), 0, Tokens(0, 0), 0)];
      runs := runs + {b.run};
      return Accepted;
    }

    method AuthorizeScope(token: nat, now: int, lease: bool) returns (b: Option<Binding>)
      modifies `scopes
      ensures (State(), b) == Authorize(old(State()), token, now, lease)
    {
      if token !in scopes || scopes[token].binding.None? {
        return None;
      }
      b := scopes[token].binding;
      if !(b.value.expiresAt > now && lease) {
        scopes := scopes[token := scopes[token].(binding := None)];
        b := None;
      }
    }

    method Reserve(token: nat, input: int, output: int, cost: int, now: int, lease: bool) returns (outcome: Outcome)
      modifies `scopes
      ensures (State(), outcome) == ReserveInference(old(State()), token, input, output, cost, now, lease)
    {
      if input <= 0 || output <= 0 || cost <= 0 {
        return BudgetExhausted;
      }
      var b := AuthorizeScope(token, now, lease);
      if b.None? {
        return Rejected;
      }
      var s := scopes[token];
      if || s.inferences + 1 > b.value.maxInferences || s.tokens.input + input > b.value.maxTokens.input
         || s.tokens.output + output > b.value.maxTokens.output || s.cost + cost > b.value.maxCost {
        return BudgetExhausted;
      }
      s := s.(inferences := s.inferences + 1);
      s := s.(tokens := Tokens(s.tokens.input + input, s.tokens.output + output));
      s := s.(cost := s.cost + cost);
      scopes := scopes[token := s];
      return Accepted;
    }

    method RevokeScope(token: nat) returns (outcome: Outcome)
      modifies `scopes
      ensures (State(), outcome) == Revoke(old(State()), token)
    {
      if token in scopes {
        scopes := scopes[token := scopes[token].(binding := None)];
      } else {
        if |scopes| >= maxRecords {
          return CapacityExhausted;
        }
        scopes := scopes[token := Scope(None, 0, Tokens(0, 0), 0)];
      }
      return Accepted;
    }
  }
}
