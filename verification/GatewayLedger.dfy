// The gateway's durable ledger of budget assertions: nonces against replay, tokens reserved per run.
module GatewayLedger {
  import opened Wrappers

  // Times are whole seconds.
  datatype Assertion = Assertion(run: nat, alias: nat, ceiling: int, expiresAt: int, nonce: nat)

  datatype Row = Row(alias: nat, ceiling: int, used: nat, expiresAt: int, retainUntil: int)

  datatype Ledger = Ledger(maxRecords: nat, retention: nat, runs: map<nat, Row>, nonces: map<nat, int>)

  datatype Refusal = AliasMismatch | InvalidCeiling | Expired | LifetimeTooLong
                   | CapacityExhausted | Replayed | Retired | BindingChanged | BudgetExhausted

  const MAX_LIFETIME: int := 300
  const MAX_CEILING: int := 100_000
  const MIN_RETENTION: nat := 24 * 60 * 60
  const MIN_RECORDS: nat := 100

  // What is left to check of an assertion once its signature and fields are in order.
  function Verify(a: Assertion, alias: nat, now: int): Option<Refusal> {
    if a.alias != alias then Some(AliasMismatch)
    else if !(1 <= a.ceiling <= MAX_CEILING) then Some(InvalidCeiling)
    else if a.expiresAt <= now then Some(Expired)
    else if a.expiresAt > now + MAX_LIFETIME then Some(LifetimeTooLong)
    else None
  }

  function Purge(l: Ledger, now: int): Ledger {
    l.(nonces := map n | n in l.nonces && l.nonces[n] > now :: l.nonces[n],
       runs := map r | r in l.runs && l.runs[r].retainUntil > now :: l.runs[r])
  }

  function Later(a: int, b: int): int {
    if a < b then b else a
  }

  function Commit(l: Ledger, a: Assertion, tokens: nat, row: Row): Ledger {
    l.(nonces := l.nonces[a.nonce := a.expiresAt],
       runs := l.runs[a.run := row.(used := row.used + tokens, expiresAt := Later(row.expiresAt, a.expiresAt))])
  }

  function Admit(p: Ledger, a: Assertion, tokens: nat, now: int): Result<Ledger, Refusal> {
    if |p.nonces| >= p.maxRecords then Err(CapacityExhausted)
    else if a.nonce in p.nonces then Err(Replayed)
    else if a.run in p.runs then
      var row := p.runs[a.run];
      if now >= row.expiresAt then Err(Retired)
      else if row.alias != a.alias || row.ceiling != a.ceiling then Err(BindingChanged)
      else if tokens > a.ceiling - row.used then Err(BudgetExhausted)
      else Ok(Commit(p, a, tokens, row))
    else if |p.runs| >= p.maxRecords then Err(CapacityExhausted)
    else if tokens > a.ceiling then Err(BudgetExhausted)
    else Ok(Commit(p, a, tokens, Row(a.alias, a.ceiling, 0, a.expiresAt, now + p.retention)))
  }

  // One transaction: a refusal leaves the ledger as it was, unpurged.
  function Reserve(l: Ledger, a: Assertion, tokens: nat, now: int): Result<Ledger, Refusal> {
    Admit(Purge(l, now), a, tokens, now)
  }

  function Prepare(l: Ledger, alias: nat, a: Assertion, tokens: nat, now: int): Result<Ledger, Refusal> {
    var refusal := Verify(a, alias, now);
    if refusal.Some? then Err(refusal.value) else Reserve(l, a, tokens, now)
  }

  // ---------------------------------------------------------------- the ledger with its history

  datatype Accept = Accept(assertion: Assertion, tokens: nat, time: int)

  // `clock` is the time of the last request; it never runs backwards.
  datatype Gateway = Gateway(ledger: Ledger, alias: nat, accepted: seq<Accept>, clock: int)

  datatype Request = Request(assertion: Assertion, tokens: nat, wait: nat)

  function Next(g: Gateway, q: Request): Gateway {
    var now := g.clock + q.wait;
    var r := Prepare(g.ledger, g.alias, q.assertion, q.tokens, now);
    if r.Err? then g.(clock := now)
    else Gateway(r.value, g.alias, g.accepted + [Accept(q.assertion, q.tokens, now)], now)
  }

  function Serve(g: Gateway, qs: seq<Request>): Gateway {
    if qs == [] then g else Next(Serve(g, qs[..|qs| - 1]), qs[|qs| - 1])
  }

  function Init(maxRecords: nat, retention: nat, alias: nat, clock: int): Gateway {
    Gateway(Ledger(maxRecords, retention, map[], map[]), alias, [], clock)
  }

  // Tokens accepted for a run since a time.
  function UsedSince(accepted: seq<Accept>, run: nat, since: int): nat {
    if accepted == [] then 0
    else
      var x := accepted[|accepted| - 1];
      UsedSince(accepted[..|accepted| - 1], run, since)
        + (if x.assertion.run == run && x.time >= since then x.tokens else 0)
  }

  // The latest expiry among the assertions accepted for a run since a time.
  function LastExpiry(accepted: seq<Accept>, run: nat, since: int): Option<int> {
    if accepted == [] then None
    else
      var x, before := accepted[|accepted| - 1], LastExpiry(accepted[..|accepted| - 1], run, since);
      if x.assertion.run != run || x.time < since then before
      else if before.Some? then Some(Later(before.value, x.assertion.expiresAt))
      else Some(x.assertion.expiresAt)
  }

  function Created(l: Ledger, row: Row): int {
    row.retainUntil - l.retention
  }

  // A run's row accounts for exactly the requests accepted since it was created, and expires with the
  // last of them.
  predicate RowOk(g: Gateway, run: nat, row: Row) {
    && Created(g.ledger, row) <= g.clock
    && row.used == UsedSince(g.accepted, run, Created(g.ledger, row)) <= row.ceiling
    && LastExpiry(g.accepted, run, Created(g.ledger, row)) == Some(row.expiresAt)
    && (forall x | x in g.accepted && x.assertion.run == run ::
          && x.time < row.retainUntil
          && (x.time >= Created(g.ledger, row) ==>
                x.assertion.alias == row.alias && x.assertion.ceiling == row.ceiling))
  }

  predicate AcceptOk(g: Gateway, x: Accept) {
    && x.time <= g.clock && Verify(x.assertion, g.alias, x.time).None?
    && (x.assertion.run !in g.ledger.runs ==> x.time < g.clock)
    && (x.assertion.expiresAt > g.clock ==>
          x.assertion.nonce in g.ledger.nonces && g.ledger.nonces[x.assertion.nonce] == x.assertion.expiresAt)
  }

  // A nonce comes back only after the assertion that used it has expired.
  predicate NoReplay(accepted: seq<Accept>) {
    forall i, j | 0 <= i < j < |accepted| && accepted[i].assertion.nonce == accepted[j].assertion.nonce ::
      accepted[i].assertion.expiresAt <= accepted[j].time
  }

  predicate WithinCapacity(l: Ledger) {
    |l.nonces| <= l.maxRecords && |l.runs| <= l.maxRecords
  }

  predicate Sound(g: Gateway) {
    && g.ledger.retention >= MIN_RETENTION
    && WithinCapacity(g.ledger)
    && (forall r | r in g.ledger.runs :: RowOk(g, r, g.ledger.runs[r]))
    && (forall x | x in g.accepted :: AcceptOk(g, x))
    && NoReplay(g.accepted)
  }

  lemma {:induction false} UsedNone(accepted: seq<Accept>, run: nat, since: int)
    requires forall x | x in accepted && x.assertion.run == run :: x.time < since
    ensures UsedSince(accepted, run, since) == 0 && LastExpiry(accepted, run, since) == None
  {
    if accepted != [] {
      UsedNone(accepted[..|accepted| - 1], run, since);
    }
  }

  lemma UsedAppend(accepted: seq<Accept>, x: Accept, run: nat, since: int)
    ensures UsedSince(accepted + [x], run, since)
            == UsedSince(accepted, run, since) + (if x.assertion.run == run && x.time >= since then x.tokens else 0)
    ensures var before := LastExpiry(accepted, run, since);
            LastExpiry(accepted + [x], run, since)
            == if x.assertion.run != run || x.time < since then before
               else if before.Some? then Some(Later(before.value, x.assertion.expiresAt))
               else Some(x.assertion.expiresAt)
  {
    assert (accepted + [x])[..|accepted|] == accepted;
  }

  // Another run's row is not touched by an acceptance.
  lemma OtherRow(g: Gateway, h: Gateway, x: Accept, run: nat)
    requires Sound(g) && run in g.ledger.runs && x.assertion.run != run
    requires h.accepted == g.accepted + [x] && h.clock >= g.clock && h.ledger.retention == g.ledger.retention
    ensures RowOk(h, run, g.ledger.runs[run])
  {
    UsedAppend(g.accepted, x, run, Created(g.ledger, g.ledger.runs[run]));
  }

  // A row that is due the request adds it.
  lemma RowExtended(g: Gateway, h: Gateway, x: Accept, row: Row)
    requires RowOk(g, x.assertion.run, row) && g.clock <= h.clock == x.time < row.retainUntil
    requires h.accepted == g.accepted + [x] && h.ledger.retention == g.ledger.retention
    requires row.alias == x.assertion.alias && row.ceiling == x.assertion.ceiling && row.used + x.tokens <= row.ceiling
    ensures RowOk(h, x.assertion.run,
                  row.(used := row.used + x.tokens, expiresAt := Later(row.expiresAt, x.assertion.expiresAt)))
  {
    hide UsedSince, LastExpiry;
    UsedAppend(g.accepted, x, x.assertion.run, Created(g.ledger, row));
  }

  // A fresh row, when all earlier requests of the run lie before it.
  lemma RowFirst(g: Gateway, h: Gateway, x: Accept)
    requires forall y | y in g.accepted && y.assertion.run == x.assertion.run :: y.time < x.time
    requires h.accepted == g.accepted + [x] && h.ledger.retention == g.ledger.retention >= MIN_RETENTION
             && h.clock == x.time
    requires x.tokens <= x.assertion.ceiling
    ensures var a := x.assertion;
            RowOk(h, a.run, Row(a.alias, a.ceiling, x.tokens, a.expiresAt, x.time + h.ledger.retention))
  {
    hide UsedSince, LastExpiry;
    UsedNone(g.accepted, x.assertion.run, x.time);
    UsedAppend(g.accepted, x, x.assertion.run, x.time);
  }

  lemma AcceptedRow(g: Gateway, a: Assertion, tokens: nat, now: int)
    requires Sound(g) && g.clock <= now && Verify(a, g.alias, now).None?
    requires Reserve(g.ledger, a, tokens, now).Ok?
    ensures var h := Gateway(Reserve(g.ledger, a, tokens, now).value, g.alias, g.accepted + [Accept(a, tokens, now)],
                             now);
            a.run in h.ledger.runs && RowOk(h, a.run, h.ledger.runs[a.run])
  {
    hide UsedSince, LastExpiry, NoReplay, RowOk, AcceptOk;
    var x := Accept(a, tokens, now);
    var h := Gateway(Reserve(g.ledger, a, tokens, now).value, g.alias, g.accepted + [x], now);
    if a.run in Purge(g.ledger, now).runs {
      RowExtended(g, h, x, g.ledger.runs[a.run]);
    } else {
      forall y | y in g.accepted && y.assertion.run == a.run ensures y.time < now {
        PurgedEarlier(g, y, now);
      }
      RowFirst(g, h, x);
    }
  }

  lemma PurgedEarlier(g: Gateway, y: Accept, now: int)
    requires Sound(g) && y in g.accepted && g.clock <= now && y.assertion.run !in Purge(g.ledger, now).runs
    ensures y.time < now
  {
    hide UsedSince, LastExpiry, NoReplay;
    assert AcceptOk(g, y);
    if y.assertion.run in g.ledger.runs {
      assert RowOk(g, y.assertion.run, g.ledger.runs[y.assertion.run]);
    }
  }

  lemma AcceptedEarlier(g: Gateway, a: Assertion, tokens: nat, now: int, y: Accept)
    requires Sound(g) && g.clock <= now && Verify(a, g.alias, now).None? && y in g.accepted
    requires Reserve(g.ledger, a, tokens, now).Ok?
    ensures var h := Gateway(Reserve(g.ledger, a, tokens, now).value, g.alias, g.accepted + [Accept(a, tokens, now)],
                             now);
            AcceptOk(h, y)
    ensures y.assertion.nonce == a.nonce ==> y.assertion.expiresAt <= now
  {
    hide UsedSince, LastExpiry, NoReplay;
    assert AcceptOk(g, y);
    if y.assertion.run in g.ledger.runs {
      assert RowOk(g, y.assertion.run, g.ledger.runs[y.assertion.run]);
    }
  }

  lemma OneMore<V>(m: map<nat, V>, k: nat, v: V)
    ensures |m[k := v]| == |m| + (if k in m then 0 else 1)
  {
    assert m[k := v].Keys == m.Keys + {k};
    assert |m[k := v].Keys| == |m.Keys| + (if k in m then 0 else 1);
  }

  lemma PurgeSmaller(l: Ledger, now: int)
    ensures |Purge(l, now).runs| <= |l.runs| && Purge(l, now).maxRecords == l.maxRecords
  {
    var p := Purge(l, now);
    Subsets(p.runs.Keys, l.runs.Keys);
    assert |p.runs| == |p.runs.Keys| && |l.runs| == |l.runs.Keys|;
  }

  lemma AcceptedCapacity(l: Ledger, a: Assertion, tokens: nat, now: int)
    requires WithinCapacity(l) && Reserve(l, a, tokens, now).Ok?
    ensures WithinCapacity(Reserve(l, a, tokens, now).value)
  {
    hide Purge;
    PurgeSmaller(l, now);
    AdmittedCapacity(Purge(l, now), a, tokens, now);
  }

  lemma AdmittedCapacity(p: Ledger, a: Assertion, tokens: nat, now: int)
    requires |p.runs| <= p.maxRecords && Admit(p, a, tokens, now).Ok?
    ensures WithinCapacity(Admit(p, a, tokens, now).value)
  {
    var m := Admit(p, a, tokens, now).value;
    OneMore(p.nonces, a.nonce, a.expiresAt);
    OneMore(p.runs, a.run, m.runs[a.run]);
  }

  lemma AcceptedSound(g: Gateway, a: Assertion, tokens: nat, now: int)
    requires Sound(g) && g.clock <= now && Verify(a, g.alias, now).None?
    requires Reserve(g.ledger, a, tokens, now).Ok?
    ensures Sound(Gateway(Reserve(g.ledger, a, tokens, now).value, g.alias, g.accepted + [Accept(a, tokens, now)], now))
  {
    hide UsedSince, LastExpiry, RowOk, AcceptOk;
    var x := Accept(a, tokens, now);
    var h := Gateway(Reserve(g.ledger, a, tokens, now).value, g.alias, g.accepted + [x], now);
    AcceptedRow(g, a, tokens, now);
    AcceptedCapacity(g.ledger, a, tokens, now);
    forall r | r in h.ledger.runs ensures RowOk(h, r, h.ledger.runs[r]) {
      if r != a.run {
        OtherRow(g, h, x, r);
      }
    }
    forall y | y in h.accepted ensures AcceptOk(h, y) {
      if y in g.accepted {
        AcceptedEarlier(g, a, tokens, now, y);
      } else {
        AcceptedNow(h, x);
      }
    }
    forall i, j | 0 <= i < j < |h.accepted| && h.accepted[i].assertion.nonce == h.accepted[j].assertion.nonce
      ensures h.accepted[i].assertion.expiresAt <= h.accepted[j].time
    {
      if j == |g.accepted| {
        AcceptedEarlier(g, a, tokens, now, g.accepted[i]);
      }
    }
  }

  lemma AcceptedNow(h: Gateway, x: Accept)
    requires x.time == h.clock && Verify(x.assertion, h.alias, x.time).None? && x.assertion.run in h.ledger.runs
    requires x.assertion.nonce in h.ledger.nonces && h.ledger.nonces[x.assertion.nonce] == x.assertion.expiresAt
    ensures AcceptOk(h, x)
  {
  }

  lemma WaitSound(g: Gateway, now: int)
    requires Sound(g) && g.clock <= now
    ensures Sound(g.(clock := now))
  {
    hide UsedSince, LastExpiry;
    var h := g.(clock := now);
    forall r | r in h.ledger.runs ensures RowOk(h, r, h.ledger.runs[r]) {
      assert RowOk(g, r, g.ledger.runs[r]);
    }
    forall x | x in h.accepted ensures AcceptOk(h, x) {
      assert AcceptOk(g, x);
    }
  }

  lemma NextSound(g: Gateway, q: Request)
    requires Sound(g)
    ensures Sound(Next(g, q))
  {
    hide Sound, Reserve;
    var now := g.clock + q.wait;
    if Prepare(g.ledger, g.alias, q.assertion, q.tokens, now).Ok? {
      AcceptedSound(g, q.assertion, q.tokens, now);
    } else {
      WaitSound(g, now);
    }
  }

  lemma {:induction false} AlwaysSound(g: Gateway, qs: seq<Request>)
    requires Sound(g)
    ensures Sound(Serve(g, qs))
  {
    hide Sound, Next;
    if qs != [] {
      AlwaysSound(g, qs[..|qs| - 1]);
      NextSound(Serve(g, qs[..|qs| - 1]), qs[|qs| - 1]);
    }
  }

  // What is remembered beyond a time.
  function Remembered(l: Ledger, now: int): (set<nat>, set<nat>) {
    (set n | n in l.nonces && now < l.nonces[n], set r | r in l.runs && now < l.runs[r].retainUntil)
  }

  lemma PurgeExactly(l: Ledger, now: int)
    ensures var (nonces, runs) := Remembered(l, now);
            var p := Purge(l, now);
            && p.maxRecords == l.maxRecords && p.retention == l.retention
            && p.nonces.Keys == nonces && |p.nonces| == |nonces|
            && (forall n | n in nonces :: p.nonces[n] == l.nonces[n])
            && p.runs.Keys == runs && |p.runs| == |runs|
            && (forall r | r in runs :: p.runs[r] == l.runs[r] && now < p.runs[r].retainUntil)
  {
    var p := Purge(l, now);
    assert |p.nonces.Keys| == |p.nonces| && |p.runs.Keys| == |p.runs|;
    assert p.nonces.Keys == Remembered(l, now).0 && p.runs.Keys == Remembered(l, now).1;
  }

  // The run's row, if it is remembered, and this assertion of it.
  predicate RowAllows(l: Ledger, a: Assertion, tokens: nat, now: int)
    requires a.run in l.runs
  {
    var row := l.runs[a.run];
    now < row.expiresAt && row.alias == a.alias && row.ceiling == a.ceiling && row.used + tokens <= a.ceiling
  }

  lemma AdmitExactly(p: Ledger, a: Assertion, tokens: nat, now: int)
    requires forall r | r in p.runs :: now < p.runs[r].retainUntil
    ensures var r := Admit(p, a, tokens, now);
            && (r.Ok? <==>
                  && |p.nonces| < p.maxRecords && a.nonce !in p.nonces
                  && if a.run in p.runs then RowAllows(p, a, tokens, now)
                     else |p.runs| < p.maxRecords && tokens <= a.ceiling)
            && (r.Ok? ==>
                  && r.value.nonces == p.nonces[a.nonce := a.expiresAt]
                  && r.value.runs == p.runs[a.run := RowAfter(p, a, tokens, now)])
  {
  }

  // The row of a run once this assertion is accepted.
  function RowAfter(l: Ledger, a: Assertion, tokens: nat, now: int): Row {
    if a.run in l.runs && now < l.runs[a.run].retainUntil then
      var row := l.runs[a.run];
      row.(used := row.used + tokens, expiresAt := if row.expiresAt < a.expiresAt then a.expiresAt else row.expiresAt)
    else Row(a.alias, a.ceiling, tokens, a.expiresAt, now + l.retention)
  }

  // An assertion is accepted exactly if it is of the gateway's model, with a possible ceiling and lifetime,
  // is not remembered, and its run, if that is remembered, is not retired, bound the same and has tokens
  // left; and there is room.
  lemma PreparesExactly(l: Ledger, alias: nat, a: Assertion, tokens: nat, now: int)
    ensures var (nonces, runs) := Remembered(l, now);
            Prepare(l, alias, a, tokens, now).Ok?
            <==> && a.alias == alias && 1 <= a.ceiling <= 100_000 && now < a.expiresAt <= now + 300
                 && |nonces| < l.maxRecords && a.nonce !in nonces
                 && if a.run in runs then RowAllows(l, a, tokens, now) else |runs| < l.maxRecords && tokens <= a.ceiling
  {
    PurgeExactly(l, now);
    AdmitExactly(Purge(l, now), a, tokens, now);
    RowPurged(l, a, tokens, now);
    hide Purge, Admit, Remembered, RowAfter, RowAllows;
  }

  // Then it is remembered, its tokens are used, and all that has passed is purged.
  lemma PreparedLedger(l: Ledger, alias: nat, a: Assertion, tokens: nat, now: int)
    requires Prepare(l, alias, a, tokens, now).Ok?
    ensures var m := Prepare(l, alias, a, tokens, now).value;
            var nonces := map n | n in l.nonces && now < l.nonces[n] :: l.nonces[n];
            var runs := map r | r in l.runs && now < l.runs[r].retainUntil :: l.runs[r];
            && m.nonces == nonces[a.nonce := a.expiresAt] && m.runs == runs[a.run := RowAfter(l, a, tokens, now)]
            && m.maxRecords == l.maxRecords && m.retention == l.retention
  {
    PurgeExactly(l, now);
    AdmitExactly(Purge(l, now), a, tokens, now);
    RowPurged(l, a, tokens, now);
    PurgedMaps(l, now);
    hide Purge, Verify, Remembered, RowAfter, RowAllows;
  }

  lemma PurgedMaps(l: Ledger, now: int)
    ensures Purge(l, now).nonces == map n | n in l.nonces && now < l.nonces[n] :: l.nonces[n]
    ensures Purge(l, now).runs == map r | r in l.runs && now < l.runs[r].retainUntil :: l.runs[r]
  {
  }

  lemma RowPurged(l: Ledger, a: Assertion, tokens: nat, now: int)
    ensures var p := Purge(l, now);
            && (a.run in p.runs ==> now < p.runs[a.run].retainUntil)
            && (a.run in p.runs <==> a.run in Remembered(l, now).1)
            && (a.run in p.runs ==> p.runs[a.run] == l.runs[a.run] && a.run in l.runs)
            && (a.run in p.runs ==> RowAllows(p, a, tokens, now) == RowAllows(l, a, tokens, now))
            && RowAfter(p, a, tokens, now) == RowAfter(l, a, tokens, now)
  {
  }

  lemma PrepareKeeps(l: Ledger, alias: nat, a: Assertion, tokens: nat, now: int)
    ensures var r := Prepare(l, alias, a, tokens, now);
            r.Ok? ==> r.value.maxRecords == l.maxRecords && r.value.retention == l.retention
  {
  }

  lemma {:induction false} LimitsKept(g: Gateway, qs: seq<Request>)
    ensures var h := Serve(g, qs);
            h.alias == g.alias && h.ledger.maxRecords == g.ledger.maxRecords && h.ledger.retention == g.ledger.retention
  {
    hide Prepare;
    if qs != [] {
      LimitsKept(g, qs[..|qs| - 1]);
      var before, q := Serve(g, qs[..|qs| - 1]), qs[|qs| - 1];
      PrepareKeeps(before.ledger, before.alias, q.assertion, q.tokens, before.clock + q.wait);
    }
  }

  // Every row shows exactly the tokens accepted for its run since it was created, within its ceiling.
  predicate UseShown(g: Gateway, retention: nat) {
    forall r | r in g.ledger.runs ::
      var row := g.ledger.runs[r];
      row.used == UsedSince(g.accepted, r, row.retainUntil - retention) <= row.ceiling
  }

  // Whatever is presented, only valid assertions are accepted, and the same one at most once, although
  // expired nonces are purged; the ledger stays within its capacity, and each row shows exactly the
  // tokens accepted since its creation, within its ceiling.
  lemma AcceptedOnce(maxRecords: nat, retention: nat, alias: nat, clock: int, qs: seq<Request>)
    requires retention >= MIN_RETENTION
    ensures var g := Serve(Init(maxRecords, retention, alias, clock), qs);
            && (forall x | x in g.accepted ::
                  && x.assertion.alias == alias && 1 <= x.assertion.ceiling <= 100_000
                  && x.time < x.assertion.expiresAt <= x.time + 300)
            && (forall i, j | 0 <= i < j < |g.accepted| :: g.accepted[i].assertion != g.accepted[j].assertion)
            && |g.ledger.nonces| <= maxRecords && |g.ledger.runs| <= maxRecords
            && UseShown(g, retention)
  {
    var init := Init(maxRecords, retention, alias, clock);
    InitSound(maxRecords, retention, alias, clock);
    hide Next, Serve, Sound, UseShown, Verify;
    AlwaysSound(init, qs);
    LimitsKept(init, qs);
    AcceptedValid(Serve(init, qs));
    UsedExactly(Serve(init, qs), retention);
  }

  lemma InitSound(maxRecords: nat, retention: nat, alias: nat, clock: int)
    requires retention >= MIN_RETENTION
    ensures Sound(Init(maxRecords, retention, alias, clock))
  {
  }

  lemma AcceptedValid(g: Gateway)
    requires Sound(g)
    ensures forall x | x in g.accepted :: && x.assertion.alias == g.alias && 1 <= x.assertion.ceiling <= 100_000
                                          && x.time < x.assertion.expiresAt <= x.time + 300
    ensures forall i, j | 0 <= i < j < |g.accepted| :: g.accepted[i].assertion != g.accepted[j].assertion
  {
    hide RowOk;
    forall x | x in g.accepted
      ensures && x.assertion.alias == g.alias && 1 <= x.assertion.ceiling <= 100_000
              && x.time < x.assertion.expiresAt <= x.time + 300
    {
      assert AcceptOk(g, x);
    }
    forall i, j | 0 <= i < j < |g.accepted| ensures g.accepted[i].assertion != g.accepted[j].assertion {
      assert AcceptOk(g, g.accepted[j]);
    }
  }

  lemma UsedExactly(g: Gateway, retention: nat)
    requires Sound(g) && g.ledger.retention == retention
    ensures |g.ledger.nonces| <= g.ledger.maxRecords && |g.ledger.runs| <= g.ledger.maxRecords
    ensures UseShown(g, retention)
  {
    hide AcceptOk, UsedSince, LastExpiry, NoReplay;
    forall r | r in g.ledger.runs
      ensures var row := g.ledger.runs[r];
              row.used == UsedSince(g.accepted, r, row.retainUntil - retention) <= row.ceiling
    {
      assert RowOk(g, r, g.ledger.runs[r]);
    }
  }

  // The run's row is kept, and every assertion accepted for the run since the row was created has expired.
  predicate AllExpired(g: Gateway, run: nat) {
    && run in g.ledger.runs
    && forall x | x in g.accepted && x.assertion.run == run && x.time >= Created(g.ledger, g.ledger.runs[run]) ::
         x.assertion.expiresAt <= g.clock
  }

  predicate RowExpired(g: Gateway, run: nat) {
    run in g.ledger.runs && g.ledger.runs[run].expiresAt <= g.clock
  }

  lemma {:induction false} LastIsLast(accepted: seq<Accept>, run: nat, since: int)
    ensures var last := LastExpiry(accepted, run, since);
            && (last.Some? ==>
                  exists x ::
                    x in accepted && x.assertion.run == run && x.time >= since && x.assertion.expiresAt == last.value)
            && (forall x | x in accepted && x.assertion.run == run && x.time >= since ::
                  last.Some? && x.assertion.expiresAt <= last.value)
  {
    if accepted != [] {
      var n := |accepted| - 1;
      LastIsLast(accepted[..n], run, since);
      assert accepted == accepted[..n] + [accepted[n]];
    }
  }

  // The ledger's own test of the row's expiry decides just that.
  lemma RetiredExactly(g: Gateway, run: nat)
    requires Sound(g) && run in g.ledger.runs
    ensures AllExpired(g, run) <==> g.ledger.runs[run].expiresAt <= g.clock
  {
    hide UsedSince, LastExpiry, NoReplay, AcceptOk;
    assert RowOk(g, run, g.ledger.runs[run]);
    LastIsLast(g.accepted, run, Created(g.ledger, g.ledger.runs[run]));
  }

  lemma RetiredRefused(g: Gateway, q: Request, run: nat)
    requires RowExpired(g, run) && g.clock + q.wait < g.ledger.runs[run].retainUntil
    ensures var h := Next(g, q);
            && RowExpired(h, run) && h.ledger.runs[run] == g.ledger.runs[run]
            && (h.accepted == g.accepted
                || (h.accepted == g.accepted + [h.accepted[|g.accepted|]]
                    && h.accepted[|g.accepted|].assertion.run != run))
  {
  }

  lemma ClockOnward(g: Gateway, q: Request)
    ensures Next(g, q).clock == g.clock + q.wait
  {
  }

  lemma {:induction false} RowStaysExpired(g: Gateway, qs: seq<Request>, run: nat)
    requires RowExpired(g, run) && Serve(g, qs).clock < g.ledger.runs[run].retainUntil
    ensures var h := Serve(g, qs);
            && RowExpired(h, run) && h.ledger.runs[run] == g.ledger.runs[run]
            && g.accepted <= h.accepted && forall x | x in h.accepted[|g.accepted|..] :: x.assertion.run != run
  {
    hide Next;
    if qs != [] {
      var before := Serve(g, qs[..|qs| - 1]);
      ClockOnward(before, qs[|qs| - 1]);
      RowStaysExpired(g, qs[..|qs| - 1], run);
      RetiredRefused(before, qs[|qs| - 1], run);
      var h := Next(before, qs[|qs| - 1]);
      if h.accepted != before.accepted {
        assert h.accepted[|g.accepted|..] == before.accepted[|g.accepted|..] + [h.accepted[|before.accepted|]];
      }
    }
  }

  // A run whose accepted assertions have all expired is refused until its retention ends: no request
  // for it is accepted meanwhile.
  lemma StaysRetired(g: Gateway, qs: seq<Request>, run: nat)
    requires Sound(g) && AllExpired(g, run) && Serve(g, qs).clock < g.ledger.runs[run].retainUntil
    ensures var h := Serve(g, qs);
            && AllExpired(h, run) && h.ledger.runs[run] == g.ledger.runs[run]
            && g.accepted <= h.accepted && forall x | x in h.accepted[|g.accepted|..] :: x.assertion.run != run
  {
    hide Sound, Serve, AllExpired;
    RowKept(g, run);
    RetiredExactly(g, run);
    RowStaysExpired(g, qs, run);
    AlwaysSound(g, qs);
    RetiredExactly(Serve(g, qs), run);
  }

  lemma RowKept(g: Gateway, run: nat)
    requires AllExpired(g, run)
    ensures run in g.ledger.runs
  {
  }

  // ---------------------------------------------------------------- in place

  class DurableBudgetLedger {
    const maxRecords: nat
    const retention: nat
    var runs: map<nat, Row>
    var nonces: map<nat, int>

    function State(): Ledger
      reads this
    {
      Ledger(maxRecords, retention, runs, nonces)
    }

    constructor (maxRecords: nat, retention: nat)
      requires MIN_RECORDS <= maxRecords && MIN_RETENTION <= retention
      ensures State() == Ledger(maxRecords, retention, map[], map[])
    {
      this.maxRecords, this.retention := maxRecords, retention;
      runs, nonces := map[], map[];
    }

    method ReserveTokens(a: Assertion, tokens: nat, now: int) returns (refusal: Option<Refusal>)
      modifies this
      ensures var r := Reserve(old(State()), a, tokens, now);
              && refusal == (if r.Ok? then None else Some(r.error))
              && State() == if r.Ok? then r.value else old(State())
    {
      var savepoint := State();
      nonces := map n | n in nonces && nonces[n] > now :: nonces[n];
      runs := map r | r in runs && runs[r].retainUntil > now :: runs[r];
      assert State() == Purge(savepoint, now);
      hide Admit, Purge;
      refusal := Insert(a, tokens, now);
      if refusal.Some? {
        runs, nonces := savepoint.runs, savepoint.nonces;
      }
    }

    // The statements of the transaction after the purge.
    method Insert(a: Assertion, tokens: nat, now: int) returns (refusal: Option<Refusal>)
      modifies this
      ensures var r := Admit(old(State()), a, tokens, now);
              refusal == (if r.Ok? then None else Some(r.error)) && (r.Ok? ==> State() == r.value)
    {
      if |nonces| >= maxRecords {
        return Some(CapacityExhausted);
      }
      if a.nonce in nonces {
        return Some(Replayed);
      }
      nonces := nonces[a.nonce := a.expiresAt];
      var row;
      if a.run !in runs {
        if |runs| >= maxRecords {
          return Some(CapacityExhausted);
        }
        row := Row(a.alias, a.ceiling, 0, a.expiresAt, now + retention);
      } else {
        row := runs[a.run];
        if now >= row.expiresAt {
          return Some(Retired);
        }
        if row.alias != a.alias || row.ceiling != a.ceiling {
          return Some(BindingChanged);
        }
      }
      if tokens > a.ceiling - row.used {
        return Some(BudgetExhausted);
      }
      runs := runs[a.run := row.(used := row.used + tokens,
                                 expiresAt := if row.expiresAt < a.expiresAt then a.expiresAt else row.expiresAt)];
      return None;
    }
  }
}
