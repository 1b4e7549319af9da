// The monthly budget: reservations against a period's limit, and the append-only ledger of them.
module Budgets {
  import opened Wrappers
  import opened Pricing

  type RunId = nat

  // A model profile and the one routing policy that belongs to it. Both are immutable.
  datatype Model = Model(id: nat, revision: nat, maxTokens: Tokens, inputPrice: Option<nat>, outputPrice: Option<nat>,
                         perRunLimit: nat, monthlyLimit: nat)

  type Catalog = map<(nat, nat), Model>

  datatype Status = Reserved | Settled(used: Tokens, actual: nat) | Released

  datatype Period = Period(limit: nat, reserved: int, settled: int)

  datatype Reservation = Reservation(run: RunId, model: Model, month: nat, estimate: Tokens, cost: nat,
                                     status: Status, expiresAt: int)

  datatype Kind = ReservedEntry | SettledEntry | ReleasedEntry

  // `month` is the period of the reservation that the entry refers to.
  datatype Entry = Entry(run: RunId, month: nat, profile: (nat, nat), kind: Kind, tokens: Tokens, cost: nat)

  datatype Books = Books(periods: map<nat, Period>, reservations: seq<Reservation>, ledger: seq<Entry>)

  datatype BudgetError = UnknownModelPrice | Exhausted | Conflict

  datatype Moment = Moment(time: int, month: nat)

  datatype Request = Request(run: RunId, profile: (nat, nat), input: int, output: int, expiresAt: Option<int>)

  const DEFAULT_LEASE: int := 15 * 60

  function Start(): Books {
    Books(map[], [], [])
  }

  predicate Priced(model: Model) {
    model.inputPrice.Some? && model.outputPrice.Some?
  }

  function RatesOf(model: Model): Rates
    requires Priced(model)
  {
    Rates(model.inputPrice.value, model.outputPrice.value)
  }

  // ---------------------------------------------------------------- what the ledger records

  // The part of a reservation that the ledger determines.
  datatype Row = Row(run: RunId, month: nat, profile: (nat, nat), estimate: Tokens, cost: nat, status: Status)

  function RowOf(r: Reservation): Row {
    Row(r.run, r.month, (r.model.id, r.model.revision), r.estimate, r.cost, r.status)
  }

  function Rows(rs: seq<Reservation>): (rows: seq<Row>)
    ensures |rows| == |rs|
    ensures forall i | 0 <= i < |rs| :: rows[i] == RowOf(rs[i])
  {
    seq(|rs|, i requires 0 <= i < |rs| => RowOf(rs[i]))
  }

  function Find(rows: seq<Row>, run: RunId): (r: Option<nat>)
    ensures r.Some? ==> r.value < |rows| && rows[r.value].run == run
    ensures r.None? ==> forall i | 0 <= i < |rows| :: rows[i].run != run
  {
    if rows == [] then None
    else if rows[|rows| - 1].run == run then Some(|rows| - 1)
    else Find(rows[..|rows| - 1], run)
  }

  // The effect of one ledger entry; None if it does not fit the entries before it.
  function Post(rows: seq<Row>, e: Entry): Option<seq<Row>> {
    match Find(rows, e.run)
    case None =>
      if e.kind == ReservedEntry then Some(rows + [Row(e.run, e.month, e.profile, e.tokens, e.cost, Reserved)])
      else None
    case Some(i) =>
      if e.kind == ReservedEntry || rows[i].status != Reserved || rows[i].month != e.month
         || rows[i].profile != e.profile then None
      else if e.kind == SettledEntry then Some(rows[i := rows[i].(status := Settled(e.tokens, e.cost))])
      else if e.cost == rows[i].cost && e.tokens == Tokens(0, 0) then Some(rows[i := rows[i].(status := Released)])
      else None
  }

  function Replay(ledger: seq<Entry>): Option<seq<Row>> {
    if ledger == [] then Some([])
    else
      var before := Replay(ledger[..|ledger| - 1]);
      if before.None? then None else Post(before.value, ledger[|ledger| - 1])
  }

  datatype Side = Held | Spent

  // What a row adds to a side of a month's period.
  function Amount(row: Row, month: nat, side: Side): nat {
    if row.month != month then 0
    else if side == Held then (if row.status == Reserved then row.cost else 0)
    else if row.status.Settled? then row.status.actual
    else 0
  }

  function Total(rows: seq<Row>, month: nat, side: Side): nat {
    if rows == [] then 0 else Total(rows[..|rows| - 1], month, side) + Amount(rows[|rows| - 1], month, side)
  }

  // ---------------------------------------------------------------- the operations

  // An open reservation is settled or released; its period and the ledger follow.
  function Close(b: Books, i: nat, status: Status): Books
    requires i < |b.reservations| && b.reservations[i].month in b.periods && status != Reserved
  {
    var r := b.reservations[i];
    var p := b.periods[r.month];
    var kind, tokens, cost := if status == Released then ReleasedEntry else SettledEntry,
                              if status == Released then Tokens(0, 0) else status.used,
                              if status == Released then r.cost else status.actual;
    Books(b.periods[r.month := Period(p.limit, p.reserved - r.cost,
                                      p.settled + (if status == Released then 0 else status.actual))],
          b.reservations[i := r.(status := status)],
          b.ledger + [Entry(r.run, r.month, (r.model.id, r.model.revision), kind, tokens, cost)])
  }

  predicate Due(r: Reservation, month: nat, now: int, protected: set<RunId>) {
    r.month == month && r.status == Reserved && r.expiresAt <= now && r.run !in protected
  }

  // The first n reservations of the month that are due are released.
  function ExpireFirst(b: Books, month: nat, now: int, protected: set<RunId>, n: nat): (r: Books)
    requires n <= |b.reservations| && month in b.periods
    ensures |r.reservations| == |b.reservations| && r.periods.Keys == b.periods.Keys
    ensures forall i | n <= i < |b.reservations| :: r.reservations[i] == b.reservations[i]
    ensures forall m | m in b.periods :: r.periods[m].limit == b.periods[m].limit
    ensures forall i | 0 <= i < |b.reservations| :: r.reservations[i].run == b.reservations[i].run
  {
    if n == 0 then b
    else
      var before := ExpireFirst(b, month, now, protected, n - 1);
      if Due(before.reservations[n - 1], month, now, protected) then Close(before, n - 1, Released) else before
  }

  function ExpirePeriod(b: Books, month: nat, now: int, protected: set<RunId>): Books
    requires month in b.periods
  {
    ExpireFirst(b, month, now, protected, |b.reservations|)
  }

  // `months` are the periods that have a due reservation, in any order.
  function ExpireMonths(b: Books, months: seq<nat>, now: int, protected: set<RunId>): (r: Books)
    requires forall m | m in months :: m in b.periods
    ensures r.periods.Keys == b.periods.Keys
    decreases |months|
  {
    if months == [] then b
    else ExpirePeriod(ExpireMonths(b, months[..|months| - 1], now, protected), months[|months| - 1], now, protected)
  }

  function Open(b: Books, month: nat, limit: nat): Books {
    if month in b.periods then b else b.(periods := b.periods[month := Period(limit, 0, 0)])
  }

  predicate SameRequest(r: Reservation, q: Request) {
    (r.model.id, r.model.revision) == q.profile && r.estimate.input == q.input && r.estimate.output == q.output
  }

  function Reserve(b: Books, catalog: Catalog, now: Moment, protected: set<RunId>,
                   q: Request): Result<Books, BudgetError> {
    var existing := Find(Rows(b.reservations), q.run);
    if existing.Some? then
      if SameRequest(b.reservations[existing.value], q) then Ok(b) else Err(Conflict)
    else if q.profile !in catalog || !Priced(catalog[q.profile]) then Err(UnknownModelPrice)
    else
      var model := catalog[q.profile];
      if q.input > model.maxTokens.input || q.output > model.maxTokens.output || q.input < 0 || q.output < 0
      then Err(Conflict)
      else
        var cost := Cost(RatesOf(model), Tokens(q.input, q.output));
        if cost > model.perRunLimit then Err(Exhausted)
        else
          var ready := Open(b, now.month, model.monthlyLimit);
          if ready.periods[now.month].limit != model.monthlyLimit then Err(Conflict)
          else
            var swept := ExpirePeriod(ready, now.month, now.time, protected);
            var p := swept.periods[now.month];
            if p.reserved + p.settled + cost > p.limit then Err(Exhausted)
            else
              Ok(Add(swept, Reservation(q.run, model, now.month, Tokens(q.input, q.output), cost, Reserved,
                                        if q.expiresAt.Some? then q.expiresAt.value else now.time + DEFAULT_LEASE)))
  }

  function Add(b: Books, r: Reservation): Books
    requires r.month in b.periods
  {
    var p := b.periods[r.month];
    Books(b.periods[r.month := p.(reserved := p.reserved + r.cost)], b.reservations + [r],
          b.ledger + [Entry(r.run, r.month, (r.model.id, r.model.revision), ReservedEntry, r.estimate, r.cost)])
  }

  function Settle(b: Books, run: RunId, input: int, output: int): Result<Books, BudgetError> {
    var found := Find(Rows(b.reservations), run);
    if found.None? then Err(Conflict)
    else
      var r := b.reservations[found.value];
      if r.status == Released then Err(Conflict)
      else if r.status.Settled? then
        if r.status.used.input != input || r.status.used.output != output then Err(Conflict) else Ok(b)
      else if !Priced(r.model) then Err(UnknownModelPrice)
      else if input < 0 || output < 0 || input > r.model.maxTokens.input || output > r.model.maxTokens.output
           then Err(Conflict)
      else
        var actual := Cost(RatesOf(r.model), Tokens(input, output));
        if actual > r.model.perRunLimit then Err(Exhausted)
        else if r.month !in b.periods then Err(Conflict)
        else
          var p := b.periods[r.month];
          if p.settled + p.reserved + (actual - r.cost) > p.limit then Err(Exhausted)
          else Ok(Close(b, found.value, Settled(Tokens(input, output), actual)))
  }

  function OpenAt(b: Books, run: RunId): Option<nat> {
    var found := Find(Rows(b.reservations), run);
    if found.Some? && b.reservations[found.value].status == Reserved && b.reservations[found.value].month in b.periods
    then found
    else None
  }

  function Release(b: Books, run: RunId): Books {
    var open := OpenAt(b, run);
    if open.None? then b else Close(b, open.value, Released)
  }

  // The whole estimate is charged.
  function Charge(b: Books, run: RunId): Books {
    var open := OpenAt(b, run);
    if open.None? then b
    else Close(b, open.value, Settled(b.reservations[open.value].estimate, b.reservations[open.value].cost))
  }

  // ---------------------------------------------------------------- the invariant

  predicate Unique(rows: seq<Row>) {
    forall i, j | 0 <= i < j < |rows| :: rows[i].run != rows[j].run
  }

  // The tokens are within the model's limits and the cost is their price.
  predicate PricedAt(model: Model, t: Tokens, cost: nat) {
    Priced(model) && Covers(model.maxTokens, t) && cost == Cost(RatesOf(model), t) && cost <= model.perRunLimit
  }

  predicate Sound(r: Reservation, periods: map<nat, Period>) {
    && r.month in periods && periods[r.month].limit == r.model.monthlyLimit
    && PricedAt(r.model, r.estimate, r.cost)
    && (r.status.Settled? ==> PricedAt(r.model, r.status.used, r.status.actual))
  }

  // A period's totals are the sums over its reservations and stay within its limit.
  predicate Conserved(p: Period, month: nat, rows: seq<Row>) {
    p.reserved == Total(rows, month, Held) && p.settled == Total(rows, month, Spent)
      && p.reserved + p.settled <= p.limit
  }

  // Books that balance: replaying the ledger gives back every reservation.
  predicate Balanced(b: Books) {
    && Replay(b.ledger) == Some(Rows(b.reservations))
    && Unique(Rows(b.reservations))
    && (forall m | m in b.periods :: Conserved(b.periods[m], m, Rows(b.reservations)))
    && (forall r | r in b.reservations :: Sound(r, b.periods))
  }

  lemma {:induction false} TotalUpdate(rows: seq<Row>, i: nat, row: Row, month: nat, side: Side)
    requires i < |rows|
    ensures Total(rows[i := row], month, side)
            == Total(rows, month, side) - Amount(rows[i], month, side) + Amount(row, month, side)
    decreases |rows|
  {
    var n := |rows| - 1;
    if i == n {
      assert rows[i := row][..n] == rows[..n];
    } else {
      assert rows[i := row][..n] == rows[..n][i := row];
      TotalUpdate(rows[..n], i, row, month, side);
    }
  }

  lemma {:induction false} TotalCovers(rows: seq<Row>, i: nat, month: nat, side: Side)
    requires i < |rows|
    ensures Amount(rows[i], month, side) <= Total(rows, month, side)
    decreases |rows|
  {
    if i < |rows| - 1 {
      TotalCovers(rows[..|rows| - 1], i, month, side);
    }
  }

  lemma {:induction false} FindAt(rows: seq<Row>, i: nat)
    requires i < |rows| && Unique(rows)
    ensures Find(rows, rows[i].run) == Some(i)
    decreases |rows|
  {
    if i < |rows| - 1 {
      FindAt(rows[..|rows| - 1], i);
    }
  }

  lemma RowsUpdate(rs: seq<Reservation>, i: nat, r: Reservation)
    requires i < |rs|
    ensures Rows(rs[i := r]) == Rows(rs)[i := RowOf(r)]
  {
  }

  lemma ReplayAppend(ledger: seq<Entry>, e: Entry)
    requires Replay(ledger).Some?
    ensures Replay(ledger + [e]) == Post(Replay(ledger).value, e)
  {
    assert (ledger + [e])[..|ledger|] == ledger;
  }

  // Closing an open reservation keeps the books balanced as long as the limit holds.
  lemma CloseBalanced(b: Books, i: nat, status: Status)
    requires Balanced(b) && i < |b.reservations| && b.reservations[i].status == Reserved && status != Reserved
    requires status.Settled? ==>
               var r := b.reservations[i];
               && PricedAt(r.model, status.used, status.actual)
               && r.month in b.periods
               && b.periods[r.month].reserved + b.periods[r.month].settled + status.actual - r.cost
                  <= b.periods[r.month].limit
    ensures b.reservations[i].month in b.periods && Balanced(Close(b, i, status))
  {
    hide PricedAt, Total, Find, Replay;
    var r := b.reservations[i];
    assert Sound(r, b.periods);
    var after := Close(b, i, status);
    var rows := Rows(b.reservations);
    RowsUpdate(b.reservations, i, r.(status := status));
    FindAt(rows, i);
    ReplayAppend(b.ledger, after.ledger[|b.ledger|]);
    forall m | m in after.periods ensures Conserved(after.periods[m], m, Rows(after.reservations)) {
      assert Conserved(b.periods[m], m, rows);
      TotalUpdate(rows, i, RowOf(r.(status := status)), m, Held);
      TotalUpdate(rows, i, RowOf(r.(status := status)), m, Spent);
    }
    forall x | x in after.reservations ensures Sound(x, after.periods) {
      if x != r.(status := status) {
        assert x in b.reservations;
        assert Sound(x, b.periods);
      }
    }
  }

  lemma AddBalanced(b: Books, r: Reservation)
    requires Balanced(b) && Sound(r, b.periods) && r.status == Reserved && Find(Rows(b.reservations), r.run) == None
    requires b.periods[r.month].reserved + b.periods[r.month].settled + r.cost <= b.periods[r.month].limit
    ensures Balanced(Add(b, r))
  {
    hide PricedAt, Find, Replay;
    var after := Add(b, r);
    var rows := Rows(b.reservations);
    assert Rows(after.reservations) == rows + [RowOf(r)];
    assert (rows + [RowOf(r)])[..|rows|] == rows;
    ReplayAppend(b.ledger, after.ledger[|b.ledger|]);
    forall m | m in after.periods ensures Conserved(after.periods[m], m, Rows(after.reservations)) {
      assert Conserved(b.periods[m], m, rows);
    }
    forall x | x in after.reservations ensures Sound(x, after.periods) {
      if x != r {
        assert x in b.reservations;
        assert Sound(x, b.periods);
      }
    }
  }

  lemma {:induction false} NoneOfMonth(rows: seq<Row>, month: nat, side: Side)
    requires forall i | 0 <= i < |rows| :: rows[i].month != month
    ensures Total(rows, month, side) == 0
  {
    if rows != [] {
      NoneOfMonth(rows[..|rows| - 1], month, side);
    }
  }

  lemma OpenBalanced(b: Books, month: nat, limit: nat)
    requires Balanced(b)
    ensures Balanced(Open(b, month, limit))
  {
    hide PricedAt, Find, Replay, Total;
    if month !in b.periods {
      var after := Open(b, month, limit);
      forall i | 0 <= i < |b.reservations| ensures b.reservations[i].month != month {
        assert Sound(b.reservations[i], b.periods);
      }
      NoneOfMonth(Rows(b.reservations), month, Held);
      NoneOfMonth(Rows(b.reservations), month, Spent);
      forall m | m in after.periods ensures Conserved(after.periods[m], m, Rows(after.reservations)) {
        assert m in b.periods ==> Conserved(b.periods[m], m, Rows(b.reservations));
      }
      forall x | x in after.reservations ensures Sound(x, after.periods) {
        assert Sound(x, b.periods);
      }
    }
  }

  lemma {:induction false} ExpireBalanced(b: Books, month: nat, now: int, protected: set<RunId>, n: nat)
    requires Balanced(b) && n <= |b.reservations| && month in b.periods
    ensures Balanced(ExpireFirst(b, month, now, protected, n))
  {
    hide Balanced;
    if n > 0 {
      ExpireBalanced(b, month, now, protected, n - 1);
      var before := ExpireFirst(b, month, now, protected, n - 1);
      if Due(before.reservations[n - 1], month, now, protected) {
        CloseBalanced(before, n - 1, Released);
      }
    }
  }

  lemma {:induction false} ExpireMonthsBalanced(b: Books, months: seq<nat>, now: int, protected: set<RunId>)
    requires Balanced(b) && forall m | m in months :: m in b.periods
    ensures Balanced(ExpireMonths(b, months, now, protected))
    decreases |months|
  {
    hide Balanced, ExpireFirst;
    if months != [] {
      ExpireMonthsBalanced(b, months[..|months| - 1], now, protected);
      var before := ExpireMonths(b, months[..|months| - 1], now, protected);
      ExpireBalanced(before, months[|months| - 1], now, protected, |before.reservations|);
    }
  }

  lemma {:induction false} FindNone(rows: seq<Row>, run: RunId)
    requires forall i | 0 <= i < |rows| :: rows[i].run != run
    ensures Find(rows, run) == None
  {
    if rows != [] {
      FindNone(rows[..|rows| - 1], run);
    }
  }

  lemma ReserveBalanced(b: Books, catalog: Catalog, now: Moment, protected: set<RunId>, q: Request)
    requires Balanced(b)
    ensures var r := Reserve(b, catalog, now, protected, q); r.Ok? ==> Balanced(r.value)
  {
    hide Balanced, ExpireFirst, Cost, Open, Add;
    var r := Reserve(b, catalog, now, protected, q);
    if r.Ok? && Find(Rows(b.reservations), q.run).None? {
      var model := catalog[q.profile];
      var ready := Open(b, now.month, model.monthlyLimit);
      OpenBalanced(b, now.month, model.monthlyLimit);
      OpenKeeps(b, now.month, model.monthlyLimit);
      ExpireBalanced(ready, now.month, now.time, protected, |ready.reservations|);
      var swept := ExpirePeriod(ready, now.month, now.time, protected);
      FindNone(Rows(swept.reservations), q.run);
      AddBalanced(swept, Reservation(q.run, model, now.month, Tokens(q.input, q.output),
                                     Cost(RatesOf(model), Tokens(q.input, q.output)), Reserved,
                                     if q.expiresAt.Some? then q.expiresAt.value else now.time + DEFAULT_LEASE));
    }
  }

  lemma OpenKeeps(b: Books, month: nat, limit: nat)
    ensures var r := Open(b, month, limit);
            r.reservations == b.reservations && r.ledger == b.ledger && month in r.periods
  {
  }

  lemma SettleBalanced(b: Books, run: RunId, input: int, output: int)
    requires Balanced(b)
    ensures var r := Settle(b, run, input, output); r.Ok? ==> Balanced(r.value)
  {
    hide Balanced, Close, Cost;
    var r := Settle(b, run, input, output);
    var found := Find(Rows(b.reservations), run);
    if r.Ok? && b.reservations[found.value].status == Reserved {
      var x := b.reservations[found.value];
      CloseBalanced(b, found.value, Settled(Tokens(input, output), Cost(RatesOf(x.model), Tokens(input, output))));
    }
  }

  lemma ReleaseBalanced(b: Books, run: RunId)
    requires Balanced(b)
    ensures Balanced(Release(b, run))
  {
    hide Balanced, Close;
    if OpenAt(b, run).Some? {
      CloseBalanced(b, OpenAt(b, run).value, Released);
    }
  }

  lemma BalancedAt(b: Books, i: nat)
    requires Balanced(b) && i < |b.reservations|
    ensures Sound(b.reservations[i], b.periods) && Find(Rows(b.reservations), b.reservations[i].run) == Some(i)
    ensures var m := b.reservations[i].month; Conserved(b.periods[m], m, Rows(b.reservations))
  {
    FindAt(Rows(b.reservations), i);
  }

  lemma ChargeBalanced(b: Books, run: RunId)
    requires Balanced(b)
    ensures Balanced(Charge(b, run))
  {
    hide Balanced, Close, PricedAt;
    var open := OpenAt(b, run);
    if open.Some? {
      var r := b.reservations[open.value];
      BalancedAt(b, open.value);
      CloseBalanced(b, open.value, Settled(r.estimate, r.cost));
    }
  }

  // ---------------------------------------------------------------- runs of operations

  datatype Step =
    | ReserveStep(now: Moment, protected: set<RunId>, request: Request)
    | SettleStep(run: RunId, input: int, output: int)
    | ReleaseStep(run: RunId)
    | ChargeStep(run: RunId)
    | ExpireStep(months: seq<nat>, time: int, protected: set<RunId>)

  // An operation that fails leaves the books as they were.
  function Apply(b: Books, catalog: Catalog, step: Step): Books {
    match step
    case ReserveStep(now, protected, q) => var r := Reserve(b, catalog, now, protected, q); if r.Ok? then r.value else b
    case SettleStep(run, input, output) => var r := Settle(b, run, input, output); if r.Ok? then r.value else b
    case ReleaseStep(run) => Release(b, run)
    case ChargeStep(run) => Charge(b, run)
    case ExpireStep(months, time, protected) =>
      if forall m | m in months :: m in b.periods then ExpireMonths(b, months, time, protected) else b
  }

  function ApplyAll(b: Books, catalog: Catalog, steps: seq<Step>): Books {
    if steps == [] then b else Apply(ApplyAll(b, catalog, steps[..|steps| - 1]), catalog, steps[|steps| - 1])
  }

  lemma ApplyBalanced(b: Books, catalog: Catalog, step: Step)
    requires Balanced(b)
    ensures Balanced(Apply(b, catalog, step))
  {
    hide Balanced, Reserve, Settle, Release, Charge, ExpireMonths;
    match step {
      case ReserveStep(now, protected, q) => ReserveBalanced(b, catalog, now, protected, q);
      case SettleStep(run, input, output) => SettleBalanced(b, run, input, output);
      case ReleaseStep(run) => ReleaseBalanced(b, run);
      case ChargeStep(run) => ChargeBalanced(b, run);
      case ExpireStep(months, time, protected) =>
        if forall m | m in months :: m in b.periods {
          ExpireMonthsBalanced(b, months, time, protected);
        }
    }
  }

  // In every reachable state each period's totals are the sums over its reservations, within its
  // limit, and replaying the ledger yields exactly the reservation table.
  lemma {:induction false} AlwaysBalanced(catalog: Catalog, steps: seq<Step>)
    ensures Balanced(ApplyAll(Start(), catalog, steps))
  {
    if steps != [] {
      AlwaysBalanced(catalog, steps[..|steps| - 1]);
      ApplyBalanced(ApplyAll(Start(), catalog, steps[..|steps| - 1]), catalog, steps[|steps| - 1]);
    }
  }

  // ---------------------------------------------------------------- history only grows

  // Ledger and reservations are append-only, a closed reservation never changes, limits are fixed.
  predicate Extends(b: Books, c: Books) {
    && b.ledger <= c.ledger
    && |b.reservations| <= |c.reservations|
    && (forall i | 0 <= i < |b.reservations| ::
          c.reservations[i] == b.reservations[i]
          || (b.reservations[i].status == Reserved
              && c.reservations[i] == b.reservations[i].(status := c.reservations[i].status)))
    && (forall m | m in b.periods :: m in c.periods && c.periods[m].limit == b.periods[m].limit)
  }

  lemma ExtendsOn(a: Books, b: Books, c: Books)
    requires Extends(a, b) && Extends(b, c)
    ensures Extends(a, c)
  {
    forall m | m in a.periods ensures m in c.periods && c.periods[m].limit == a.periods[m].limit {
      assert m in b.periods;
    }
  }

  lemma CloseExtends(b: Books, i: nat, status: Status)
    requires i < |b.reservations| && b.reservations[i].status == Reserved
    requires b.reservations[i].month in b.periods && status != Reserved
    ensures Extends(b, Close(b, i, status))
  {
  }

  lemma {:induction false} ExpireExtends(b: Books, month: nat, now: int, protected: set<RunId>, n: nat)
    requires n <= |b.reservations| && month in b.periods
    ensures Extends(b, ExpireFirst(b, month, now, protected, n))
  {
    hide Extends, Close;
    if n == 0 {
      ExtendsSelf(b);
    } else {
      ExpireExtends(b, month, now, protected, n - 1);
      var before := ExpireFirst(b, month, now, protected, n - 1);
      if Due(before.reservations[n - 1], month, now, protected) {
        CloseExtends(before, n - 1, Released);
        ExtendsOn(b, before, Close(before, n - 1, Released));
      }
    }
  }

  lemma {:induction false} ExpireMonthsExtends(b: Books, months: seq<nat>, now: int, protected: set<RunId>)
    requires forall m | m in months :: m in b.periods
    ensures Extends(b, ExpireMonths(b, months, now, protected))
    decreases |months|
  {
    hide ExpireFirst;
    if months != [] {
      ExpireMonthsExtends(b, months[..|months| - 1], now, protected);
      var before := ExpireMonths(b, months[..|months| - 1], now, protected);
      ExpireExtends(before, months[|months| - 1], now, protected, |before.reservations|);
      ExtendsOn(b, before, ExpireMonths(b, months, now, protected));
    }
  }

  lemma ApplyExtends(b: Books, catalog: Catalog, step: Step)
    ensures Extends(b, Apply(b, catalog, step))
  {
    hide ExpireFirst, ExpireMonths, Cost, Find;
    match step {
      case ReserveStep(now, protected, q) =>
        var r := Reserve(b, catalog, now, protected, q);
        if r.Ok? && Find(Rows(b.reservations), q.run).None? {
          var ready := Open(b, now.month, catalog[q.profile].monthlyLimit);
          ExpireExtends(ready, now.month, now.time, protected, |ready.reservations|);
          ExtendsOn(b, ready, ExpirePeriod(ready, now.month, now.time, protected));
          ExtendsOn(b, ExpirePeriod(ready, now.month, now.time, protected), r.value);
        }
      case ExpireStep(months, time, protected) =>
        if forall m | m in months :: m in b.periods {
          ExpireMonthsExtends(b, months, time, protected);
        }
      case SettleStep(run, input, output) =>
      case ReleaseStep(run) =>
      case ChargeStep(run) =>
    }
  }

  lemma {:induction false} HistoryKept(b: Books, catalog: Catalog, steps: seq<Step>)
    ensures Extends(b, ApplyAll(b, catalog, steps))
  {
    hide Extends;
    if steps == [] {
      assert Extends(b, b) by {
        ExtendsSelf(b);
      }
    } else {
      var before := ApplyAll(b, catalog, steps[..|steps| - 1]);
      HistoryKept(b, catalog, steps[..|steps| - 1]);
      ApplyExtends(before, catalog, steps[|steps| - 1]);
      ExtendsOn(b, before, Apply(before, catalog, steps[|steps| - 1]));
    }
  }

  lemma ExtendsSelf(b: Books)
    ensures Extends(b, b)
  {
  }

  // Expiry releases exactly the due reservations of the month.
  lemma {:induction false} ExpireExact(b: Books, month: nat, now: int, protected: set<RunId>, n: nat, i: nat)
    requires n <= |b.reservations| && month in b.periods && i < n
    ensures var r := b.reservations[i];
            ExpireFirst(b, month, now, protected, n).reservations[i]
            == if r.month == month && r.status == Reserved && r.expiresAt <= now && r.run !in protected
               then r.(status := Released) else r
  {
    if i < n - 1 {
      ExpireExact(b, month, now, protected, n - 1, i);
    }
  }

  // Expiring every period that has a due reservation releases exactly the expired, unprotected ones.
  lemma {:induction false} ExpireMonthsExact(b: Books, months: seq<nat>, now: int, protected: set<RunId>, i: nat)
    requires (forall m | m in months :: m in b.periods) && i < |b.reservations|
    ensures Extends(b, ExpireMonths(b, months, now, protected))
    ensures var r := b.reservations[i];
            ExpireMonths(b, months, now, protected).reservations[i]
            == if r.month in months && r.status == Reserved && r.expiresAt <= now && r.run !in protected
               then r.(status := Released) else r
    decreases |months|
  {
    hide ExpireFirst, Extends;
    ExpireMonthsExtends(b, months, now, protected);
    if months != [] {
      var last := months[|months| - 1];
      assert months == months[..|months| - 1] + [last];
      ExpireMonthsExact(b, months[..|months| - 1], now, protected, i);
      var before := ExpireMonths(b, months[..|months| - 1], now, protected);
      assert |before.reservations| >= |b.reservations| by {
        ExtendsLength(b, before);
      }
      ExpireExact(before, last, now, protected, |before.reservations|, i);
    }
  }

  lemma ExtendsLength(b: Books, c: Books)
    requires Extends(b, c)
    ensures |b.reservations| <= |c.reservations|
  {
  }

  // ---------------------------------------------------------------- what the ledger allows

  // The row that an entry of the ledger is about, in the state the entry leaves it in for good.
  predicate Recorded(rows: seq<Row>, e: Entry) {
    var i := Find(rows, e.run);
    && i.Some?
    && (e.kind == SettledEntry ==> rows[i.value].status.Settled?)
    && (e.kind == ReleasedEntry ==> rows[i.value].status == Released)
  }

  lemma {:induction false} ReplayKnows(ledger: seq<Entry>, k: nat)
    requires Replay(ledger).Some? && k < |ledger|
    ensures Recorded(Replay(ledger).value, ledger[k])
    decreases |ledger|
  {
    hide Recorded, Post, Find;
    var n := |ledger| - 1;
    var before, e := Replay(ledger[..n]).value, ledger[n];
    if k < n {
      ReplayKnows(ledger[..n], k);
      assert ledger[..n][k] == ledger[k];
      RecordedAfter(before, e, ledger[k]);
    } else {
      RecordedNow(before, e);
    }
  }

  lemma RecordedNow(rows: seq<Row>, e: Entry)
    requires Post(rows, e).Some?
    ensures Recorded(Post(rows, e).value, e)
  {
    FindAfter(rows, e, e.run);
  }

  lemma RecordedAfter(rows: seq<Row>, e: Entry, past: Entry)
    requires Post(rows, e).Some? && Recorded(rows, past)
    ensures Recorded(Post(rows, e).value, past)
  {
    FindAfter(rows, e, past.run);
  }

  lemma FindAfter(rows: seq<Row>, e: Entry, run: RunId)
    requires Post(rows, e).Some?
    ensures Find(rows, run).Some? ==> Find(Post(rows, e).value, run) == Find(rows, run)
    ensures Find(Post(rows, e).value, e.run).Some?
  {
    var after := Post(rows, e).value;
    if Find(rows, e.run).None? {
      assert after[..|rows|] == rows;
    } else {
      FindUpdate(rows, Find(rows, e.run).value, after[Find(rows, e.run).value], run);
    }
  }

  lemma {:induction false} FindUpdate(rows: seq<Row>, i: nat, row: Row, run: RunId)
    requires i < |rows| && row.run == rows[i].run
    ensures Find(rows[i := row], run) == Find(rows, run)
    decreases |rows|
  {
    var n := |rows| - 1;
    if i == n {
      assert rows[i := row][..n] == rows[..n];
    } else {
      assert rows[i := row][..n] == rows[..n][i := row];
      FindUpdate(rows[..n], i, row, run);
    }
  }

  // A ledger that replays has at most one entry of a kind for a run, and never both a settled and
  // a released one.
  lemma {:induction false} LedgerOnce(ledger: seq<Entry>, j: nat, k: nat)
    requires Replay(ledger).Some? && j < k < |ledger| && ledger[j].run == ledger[k].run
    ensures ledger[k].kind != ReservedEntry && ledger[j].kind == ReservedEntry
    decreases |ledger|
  {
    hide Find;
    var n := |ledger| - 1;
    if k < n {
      assert ledger[..n][j] == ledger[j] && ledger[..n][k] == ledger[k];
      LedgerOnce(ledger[..n], j, k);
    } else {
      assert ledger[..n][j] == ledger[j];
      ReplayKnows(ledger[..n], j);
    }
  }

  // ---------------------------------------------------------------- outcomes a caller relies on

  // A reservation made at the model's limits settles if and only if the usage is within them.
  lemma SettleAtLimits(b: Books, i: nat, input: int, output: int)
    requires Balanced(b) && i < |b.reservations|
    requires b.reservations[i].status == Reserved && b.reservations[i].estimate == b.reservations[i].model.maxTokens
    ensures var r := b.reservations[i];
            Settle(b, r.run, input, output).Ok? <==>
              0 <= input <= r.model.maxTokens.input && 0 <= output <= r.model.maxTokens.output
  {
    hide Balanced, Cost, Total;
    var r := b.reservations[i];
    BalancedAt(b, i);
    if 0 <= input <= r.model.maxTokens.input && 0 <= output <= r.model.maxTokens.output {
      CostMonotone(RatesOf(r.model), r.model.maxTokens, Tokens(input, output));
    }
  }

  // What the month's open reservations hold that are not due.
  function Live(rs: seq<Reservation>, month: nat, now: int, protected: set<RunId>): nat {
    if rs == [] then 0
    else
      var r := rs[|rs| - 1];
      Live(rs[..|rs| - 1], month, now, protected)
      + (if r.month == month && r.status == Reserved && (now < r.expiresAt || r.run in protected) then r.cost else 0)
  }

  lemma {:induction false} LiveTotal(rs: seq<Reservation>, swept: seq<Reservation>, month: nat, now: int,
                                     protected: set<RunId>)
    requires |swept| == |rs|
    requires forall i | 0 <= i < |rs| ::
               swept[i] == if Due(rs[i], month, now, protected) then rs[i].(status := Released) else rs[i]
    ensures Total(Rows(swept), month, Held) == Live(rs, month, now, protected)
    ensures Total(Rows(swept), month, Spent) == Total(Rows(rs), month, Spent)
  {
    if rs != [] {
      var n := |rs| - 1;
      LiveTotal(rs[..n], swept[..n], month, now, protected);
      assert Rows(swept)[..n] == Rows(swept[..n]) && Rows(rs)[..n] == Rows(rs[..n]);
    }
  }

  // A sweep leaves the period with what is live and what is spent.
  lemma SweptTotals(b: Books, month: nat, now: int, protected: set<RunId>)
    requires Balanced(b) && month in b.periods
    ensures var p := ExpirePeriod(b, month, now, protected).periods[month];
            && p.limit == b.periods[month].limit && p.reserved == Live(b.reservations, month, now, protected)
            && p.settled == Total(Rows(b.reservations), month, Spent)
  {
    hide Sound, Find, Replay, Total, Live, ExpireFirst, Unique;
    var swept := ExpirePeriod(b, month, now, protected);
    ExpireBalanced(b, month, now, protected, |b.reservations|);
    forall i | 0 <= i < |b.reservations|
      ensures swept.reservations[i] == if Due(b.reservations[i], month, now, protected)
                                       then b.reservations[i].(status := Released) else b.reservations[i]
    {
      ExpireExact(b, month, now, protected, |b.reservations|, i);
    }
    LiveTotal(b.reservations, swept.reservations, month, now, protected);
    assert Conserved(swept.periods[month], month, Rows(swept.reservations));
  }

  // A new run gets a reservation if and only if its model is known and priced, the tokens are within
  // the model's limits and the cost within the run's, and the month has room beside what is live and
  // what is spent.
  lemma ReserveExactly(b: Books, catalog: Catalog, now: Moment, protected: set<RunId>, q: Request)
    requires Balanced(b) && Standing(b, q.run).None?
    ensures Reserve(b, catalog, now, protected, q).Ok? <==>
              && q.profile in catalog && Priced(catalog[q.profile])
              && 0 <= q.input <= catalog[q.profile].maxTokens.input
              && 0 <= q.output <= catalog[q.profile].maxTokens.output
              && (now.month in b.periods ==> b.periods[now.month].limit == catalog[q.profile].monthlyLimit)
              && var cost := Cost(RatesOf(catalog[q.profile]), Tokens(q.input, q.output));
                 cost <= catalog[q.profile].perRunLimit
                 && Live(b.reservations, now.month, now.time, protected) + Total(Rows(b.reservations), now.month, Spent)
                    + cost
                    <= catalog[q.profile].monthlyLimit
  {
    hide Balanced, Cost, Live, Total, ExpireFirst, Find;
    if q.profile in catalog {
      var ready := Open(b, now.month, catalog[q.profile].monthlyLimit);
      OpenBalanced(b, now.month, catalog[q.profile].monthlyLimit);
      SweptTotals(ready, now.month, now.time, protected);
    }
  }

  // Why a new run gets none: its price is not known, it asks for what no run may have or the month's limit
  // has changed, or it costs more than a run may or than is left.
  lemma ReserveErrors(b: Books, catalog: Catalog, now: Moment, protected: set<RunId>, q: Request)
    requires Standing(b, q.run).None?
    ensures var r := Reserve(b, catalog, now, protected, q);
            if q.profile !in catalog || !Priced(catalog[q.profile]) then r == Err(UnknownModelPrice)
            else
              var model := catalog[q.profile];
              if !(0 <= q.input <= model.maxTokens.input && 0 <= q.output <= model.maxTokens.output)
              then r == Err(Conflict)
              else if Cost(RatesOf(model), Tokens(q.input, q.output)) > model.perRunLimit then r == Err(Exhausted)
              else if now.month in b.periods && b.periods[now.month].limit != model.monthlyLimit then r == Err(Conflict)
              else r.Err? ==> r == Err(Exhausted)
  {
    hide Cost, ExpireFirst, Find;
  }

  // Settling fails as a conflict if nothing is reserved for the run, or another usage was settled, or one
  // beyond the limits is; for no price only if there is none; and otherwise because it costs too much.
  lemma SettleErrors(b: Books, run: RunId, input: int, output: int)
    requires Balanced(b)
    ensures var r, s := Settle(b, run, input, output), Standing(b, run);
            if s.None? || s.value.status == Released then r == Err(Conflict)
            else if s.value.status.Settled? then
              r == if s.value.status.used.input == input && s.value.status.used.output == output then Ok(b)
                   else Err(Conflict)
            else
              var max := s.value.model.maxTokens;
              if !(0 <= input <= max.input && 0 <= output <= max.output) then r == Err(Conflict)
              else r.Err? ==> r == Err(Exhausted)
  {
    hide Balanced, Cost, Find;
    if Standing(b, run).Some? {
      StandingSound(b, run);
    }
  }

  // Charging the estimate keeps the committed total of the month; releasing frees the reserved cost.
  lemma CloseTotals(b: Books, i: nat)
    requires Balanced(b) && i < |b.reservations| && b.reservations[i].status == Reserved
    ensures b.reservations[i].month in b.periods
    ensures var r := b.reservations[i]; r.month in Charge(b, r.run).periods && r.month in Release(b, r.run).periods
    ensures var r := b.reservations[i];
            var p, charged, released := b.periods[r.month], Charge(b, r.run).periods[r.month],
                                        Release(b, r.run).periods[r.month];
            && charged.reserved + charged.settled == p.reserved + p.settled
            && charged.reserved == p.reserved - r.cost >= 0
            && released.settled == p.settled && released.reserved == p.reserved - r.cost
  {
    hide Balanced, Total, PricedAt;
    BalancedAt(b, i);
    TotalCovers(Rows(b.reservations), i, b.reservations[i].month, Held);
  }

  lemma CloseFind(b: Books, i: nat, status: Status)
    requires Balanced(b) && i < |b.reservations| && b.reservations[i].month in b.periods && status != Reserved
    ensures Find(Rows(Close(b, i, status).reservations), b.reservations[i].run) == Some(i)
  {
    hide Find, Total, Replay, PricedAt;
    var r := b.reservations[i];
    RowsUpdate(b.reservations, i, r.(status := status));
    FindAt(Rows(b.reservations), i);
    FindUpdate(Rows(b.reservations), i, RowOf(r.(status := status)), r.run);
  }

  // Settling again succeeds with the same usage, changing nothing, and conflicts with any other.
  lemma SettleOnce(b: Books, run: RunId, input: int, output: int, input': int, output': int)
    requires Balanced(b) && Settle(b, run, input, output).Ok?
    ensures var once := Settle(b, run, input, output).value;
            Settle(once, run, input', output') == if input' == input && output' == output then Ok(once)
                                                  else Err(Conflict)
  {
    hide Balanced, Cost, Find;
    var i := Find(Rows(b.reservations), run).value;
    var r := b.reservations[i];
    if r.status == Reserved {
      CloseFind(b, i, Settled(Tokens(input, output), Cost(RatesOf(r.model), Tokens(input, output))));
    }
  }

  predicate CatalogOk(catalog: Catalog) {
    forall k | k in catalog :: (catalog[k].id, catalog[k].revision) == k
  }

  // Reserving again for the same run is answered from the existing reservation, whatever its state.
  lemma ReserveOnce(b: Books, catalog: Catalog, now: Moment, protected: set<RunId>, q: Request,
                    now': Moment, protected': set<RunId>, q': Request)
    requires Balanced(b) && CatalogOk(catalog) && Reserve(b, catalog, now, protected, q).Ok? && q'.run == q.run
    ensures var once := Reserve(b, catalog, now, protected, q).value;
            Reserve(once, catalog, now', protected', q')
            == if q'.profile == q.profile && q'.input == q.input && q'.output == q.output then Ok(once)
               else Err(Conflict)
  {
    hide Balanced, Cost, ExpireFirst, Open;
    var once := Reserve(b, catalog, now, protected, q).value;
    if Find(Rows(b.reservations), q.run).None? {
      var n := |once.reservations| - 1;
      assert Rows(once.reservations)[n] == RowOf(once.reservations[n]);
    }
  }

  // ---------------------------------------------------------------- one run among others

  function Standing(b: Books, run: RunId): Option<Reservation> {
    var i := Find(Rows(b.reservations), run);
    if i.Some? then Some(b.reservations[i.value]) else None
  }

  function Subject(step: Step): Option<RunId> {
    match step
    case ReserveStep(_, _, q) => Some(q.run)
    case SettleStep(run, _, _) => Some(run)
    case ReleaseStep(run) => Some(run)
    case ChargeStep(run) => Some(run)
    case ExpireStep(_, _, _) => None
  }

  predicate Shields(step: Step, run: RunId) {
    match step
    case ReserveStep(_, protected, _) => run in protected
    case ExpireStep(_, _, protected) => run in protected
    case _ => true
  }

  lemma StandingAt(b: Books, i: nat)
    requires Balanced(b) && i < |b.reservations|
    ensures Standing(b, b.reservations[i].run) == Some(b.reservations[i])
  {
    hide Balanced;
    BalancedAt(b, i);
  }

  lemma StandingSound(b: Books, run: RunId)
    requires Balanced(b) && Standing(b, run).Some?
    ensures var r := Standing(b, run).value; r.run == run && Sound(r, b.periods)
  {
    hide Balanced;
    BalancedAt(b, Find(Rows(b.reservations), run).value);
  }

  lemma ExpireShields(b: Books, month: nat, now: int, protected: set<RunId>, i: nat)
    requires month in b.periods && i < |b.reservations|
    requires b.reservations[i].run in protected || b.reservations[i].status != Reserved
    ensures |b.reservations| == |ExpirePeriod(b, month, now, protected).reservations|
    ensures ExpirePeriod(b, month, now, protected).reservations[i] == b.reservations[i]
  {
    ExpireExact(b, month, now, protected, |b.reservations|, i);
  }

  // An operation on one run leaves the reservation of another alone, expiry included if that other
  // run is protected or its reservation is closed.
  lemma Untouched(b: Books, catalog: Catalog, step: Step, run: RunId)
    requires Balanced(b) && Standing(b, run).Some? && Subject(step) != Some(run)
    requires Shields(step, run) || Standing(b, run).value.status != Reserved
    ensures Standing(Apply(b, catalog, step), run) == Standing(b, run)
  {
    hide Balanced, ExpireFirst, ExpireMonths, Cost, Find, Sound, Due, Extends;
    var i := Find(Rows(b.reservations), run).value;
    var after := Apply(b, catalog, step);
    ApplyBalanced(b, catalog, step);
    ApplyExtends(b, catalog, step);
    ExtendsLength(b, after);
    assert after.reservations[i] == b.reservations[i] by {
      match step {
        case ReserveStep(now, protected, q) =>
          var r := Reserve(b, catalog, now, protected, q);
          if r.Ok? && Find(Rows(b.reservations), q.run).None? {
            var ready := Open(b, now.month, catalog[q.profile].monthlyLimit);
            ExpireShields(ready, now.month, now.time, protected, i);
          }
        case ExpireStep(months, time, protected) =>
          if forall m | m in months :: m in b.periods {
            ExpireMonthsExact(b, months, time, protected, i);
            DueShield(b.reservations[i], time, protected);
          }
        case SettleStep(_, _, _) =>
        case ReleaseStep(_) =>
        case ChargeStep(_) =>
      }
    }
    StandingAt(after, i);
  }

  lemma DueShield(r: Reservation, now: int, protected: set<RunId>)
    ensures r.run in protected || r.status != Reserved ==> !Due(r, r.month, now, protected)
  {
  }

  // What becomes of the reservation an operation is about.
  lemma Touched(b: Books, catalog: Catalog, step: Step, run: RunId)
    requires Balanced(b) && Subject(step) == Some(run) && !step.ReserveStep?
    requires Standing(b, run).Some? && Standing(b, run).value.status == Reserved
    ensures var r, after := Standing(b, run).value, Standing(Apply(b, catalog, step), run);
            match step
            case SettleStep(_, input, output) =>
              Settle(b, run, input, output).Ok? ==>
                && 0 <= input && 0 <= output && Priced(r.model)
                && after
                   == Some(r.(status := Settled(Tokens(input, output), Cost(RatesOf(r.model), Tokens(input, output)))))
            case ReleaseStep(_) => after == Some(r.(status := Released))
            case ChargeStep(_) => after == Some(r.(status := Settled(r.estimate, r.cost)))
            case _ => true
  {
    hide Balanced, Cost, Find, PricedAt;
    var i := Find(Rows(b.reservations), run).value;
    BalancedAt(b, i);
    var after := Apply(b, catalog, step);
    ApplyBalanced(b, catalog, step);
    ApplyExtends(b, catalog, step);
    StandingAt(after, i);
  }

  // A new reservation stands as it was asked for.
  lemma Reserves(b: Books, catalog: Catalog, now: Moment, protected: set<RunId>, q: Request)
    requires Balanced(b) && Standing(b, q.run).None? && Reserve(b, catalog, now, protected, q).Ok?
    ensures q.profile in catalog && 0 <= q.input && 0 <= q.output
    ensures var after := Standing(Reserve(b, catalog, now, protected, q).value, q.run);
            && after.Some? && after.value.status == Reserved && after.value.model == catalog[q.profile]
            && after.value.estimate == Tokens(q.input, q.output)
  {
    hide Balanced, Cost, ExpireFirst, Open;
    ReserveBalanced(b, catalog, now, protected, q);
    var after := Reserve(b, catalog, now, protected, q).value;
    StandingAt(after, |after.reservations| - 1);
  }

  // ---------------------------------------------------------------- the tables

  // The budget tables. Each method is one transaction, given the time and the protected runs: those
  // still in the Hermes lane, or whose cleanup could not be shown.
  class BudgetTables {
    const catalog: Catalog
    var periods: map<nat, Period>
    var reservations: seq<Reservation>
    var ledger: seq<Entry>

    function State(): Books
      reads this
    {
      Books(periods, reservations, ledger)
    }

    constructor (catalog: Catalog)
      ensures this.catalog == catalog && State() == Start() && Balanced(State())
    {
      this.catalog := catalog;
      periods, reservations, ledger := map[], [], [];
      new;
      AlwaysBalanced(catalog, []);
    }

    method ReserveBudget(now: Moment, protected: set<RunId>, q: Request) returns (error: Option<BudgetError>)
      requires Balanced(State())
      modifies this
      ensures Balanced(State())
      ensures State() == Apply(old(State()), catalog, ReserveStep(now, protected, q))
      ensures var r := Reserve(old(State()), catalog, now, protected, q); error == if r.Ok? then None else Some(r.error)
    {
      hide Balanced, ExpireFirst, Cost;
      ghost var before := State();
      ReserveBalanced(before, catalog, now, protected, q);
      var existing := Find(Rows(reservations), q.run);
      if existing.Some? {
        return if SameRequest(reservations[existing.value], q) then None else Some(Conflict);
      }
      if q.profile !in catalog || !Priced(catalog[q.profile]) {
        return Some(UnknownModelPrice);
      }
      var model := catalog[q.profile];
      if q.input > model.maxTokens.input || q.output > model.maxTokens.output || q.input < 0 || q.output < 0 {
        return Some(Conflict);
      }
      var tokens := Tokens(q.input, q.output);
      var cost := Cost(RatesOf(model), tokens);
      if cost > model.perRunLimit {
        return Some(Exhausted);
      }
      var savepoint := State();
      if now.month !in periods {
        periods := periods[now.month := Period(model.monthlyLimit, 0, 0)];
      }
      assert State() == Open(before, now.month, model.monthlyLimit);
      if periods[now.month].limit != model.monthlyLimit {
        periods := savepoint.periods;
        return Some(Conflict);
      }
      OpenBalanced(before, now.month, model.monthlyLimit);
      var _ := ExpirePeriodReservations(now.month, now.time, protected);
      var period := periods[now.month];
      if period.reserved + period.settled + cost > period.limit {
        periods, reservations, ledger := savepoint.periods, savepoint.reservations, savepoint.ledger;
        return Some(Exhausted);
      }
      var expiresAt := if q.expiresAt.Some? then q.expiresAt.value else now.time + DEFAULT_LEASE;
      reservations := reservations + [Reservation(q.run, model, now.month, tokens, cost, Reserved, expiresAt)];
      periods := periods[now.month := period.(reserved := period.reserved + cost)];
      ledger := ledger + [Entry(q.run, now.month, (model.id, model.revision), ReservedEntry, tokens, cost)];
      return None;
    }

    method SettleBudget(run: RunId, input: int, output: int) returns (error: Option<BudgetError>)
      requires Balanced(State())
      modifies this
      ensures Balanced(State())
      ensures State() == Apply(old(State()), catalog, SettleStep(run, input, output))
      ensures var r := Settle(old(State()), run, input, output); error == if r.Ok? then None else Some(r.error)
    {
      hide Balanced, Cost;
      SettleBalanced(State(), run, input, output);
      var found := Find(Rows(reservations), run);
      if found.None? {
        return Some(Conflict);
      }
      var r := reservations[found.value];
      BalancedAt(State(), found.value);
      if r.status == Released {
        return Some(Conflict);
      }
      if r.status.Settled? {
        return if r.status.used.input != input || r.status.used.output != output then Some(Conflict) else None;
      }
      if input < 0 || output < 0 || input > r.model.maxTokens.input || output > r.model.maxTokens.output {
        return Some(Conflict);
      }
      var used := Tokens(input, output);
      var actual := Cost(RatesOf(r.model), used);
      if actual > r.model.perRunLimit {
        return Some(Exhausted);
      }
      var period := periods[r.month];
      if period.settled + period.reserved + (actual - r.cost) > period.limit {
        return Some(Exhausted);
      }
      periods := periods[r.month := Period(period.limit, period.reserved - r.cost, period.settled + actual)];
      reservations := reservations[found.value := r.(status := Settled(used, actual))];
      ledger := ledger + [Entry(run, r.month, (r.model.id, r.model.revision), SettledEntry, used, actual)];
      return None;
    }

    method ReleaseBudget(run: RunId)
      requires Balanced(State())
      modifies this
      ensures Balanced(State())
      ensures State() == Apply(old(State()), catalog, ReleaseStep(run))
    {
      hide Balanced;
      ReleaseBalanced(State(), run);
      var found := Find(Rows(reservations), run);
      if found.None? || reservations[found.value].status != Reserved {
        return;
      }
      var r := reservations[found.value];
      BalancedAt(State(), found.value);
      var period := periods[r.month];
      periods := periods[r.month := period.(reserved := period.reserved - r.cost)];
      reservations := reservations[found.value := r.(status := Released)];
      ledger := ledger + [Entry(run, r.month, (r.model.id, r.model.revision), ReleasedEntry, Tokens(0, 0), r.cost)];
    }

    method ChargeReservedBudget(run: RunId)
      requires Balanced(State())
      modifies this
      ensures Balanced(State())
      ensures State() == Apply(old(State()), catalog, ChargeStep(run))
    {
      hide Balanced;
      ChargeBalanced(State(), run);
      var found := Find(Rows(reservations), run);
      if found.None? || reservations[found.value].status != Reserved {
        return;
      }
      var r := reservations[found.value];
      BalancedAt(State(), found.value);
      var period := periods[r.month];
      periods := periods[r.month := Period(period.limit, period.reserved - r.cost, period.settled + r.cost)];
      reservations := reservations[found.value := r.(status := Settled(r.estimate, r.cost))];
      ledger := ledger + [Entry(run, r.month, (r.model.id, r.model.revision), SettledEntry, r.estimate, r.cost)];
    }

    // The period's row is written once, after its due reservations.
    method ExpirePeriodReservations(month: nat, now: int, protected: set<RunId>) returns (count: nat)
      requires Balanced(State()) && month in periods
      modifies this
      ensures Balanced(State())
      ensures State() == ExpirePeriod(old(State()), month, now, protected)
      ensures |ledger| == |old(ledger)| + count
    {
      hide Balanced;
      ghost var before := State();
      var reserved := periods[month].reserved;
      count := 0;
      assert periods[month := periods[month].(reserved := reserved)] == periods;
      for i := 0 to |reservations|
        invariant |reservations| == |before.reservations| && periods == before.periods
        invariant ExpireFirst(before, month, now, protected, i) ==
                  Books(periods[month := periods[month].(reserved := reserved)], reservations, ledger)
        invariant |ledger| == |before.ledger| + count
      {
        var r := reservations[i];
        if r.month == month && r.status == Reserved && r.expiresAt <= now && r.run !in protected {
          reservations := reservations[i := r.(status := Released)];
          reserved := reserved - r.cost;
          ledger := ledger
                    + [Entry(r.run, r.month, (r.model.id, r.model.revision), ReleasedEntry, Tokens(0, 0), r.cost)];
          count := count + 1;
        }
      }
      if count > 0 {
        periods := periods[month := periods[month].(reserved := reserved)];
      } else {
        NothingExpired(before, month, now, protected, |before.reservations|);
      }
      ExpireBalanced(before, month, now, protected, |before.reservations|);
    }

    method ExpireReservations(months: seq<nat>, now: int, protected: set<RunId>) returns (total: nat)
      requires Balanced(State()) && forall m | m in months :: m in periods
      modifies this
      ensures Balanced(State())
      ensures State() == ExpireMonths(old(State()), months, now, protected)
      ensures |ledger| == |old(ledger)| + total
    {
      hide Balanced, ExpireFirst;
      ghost var before := State();
      total := 0;
      for i := 0 to |months|
        invariant Balanced(State()) && State() == ExpireMonths(before, months[..i], now, protected)
        invariant |ledger| == |before.ledger| + total
      {
        assert months[..i + 1][..i] == months[..i];
        var count := ExpirePeriodReservations(months[i], now, protected);
        total := total + count;
      }
      assert months[..|months|] == months;
    }
  }

  lemma {:induction false} NothingExpired(b: Books, month: nat, now: int, protected: set<RunId>, n: nat)
    requires n <= |b.reservations| && month in b.periods
    ensures |b.ledger| <= |ExpireFirst(b, month, now, protected, n).ledger|
    ensures |ExpireFirst(b, month, now, protected, n).ledger| == |b.ledger| ==>
      ExpireFirst(b, month, now, protected, n) == b
  {
    if n > 0 {
      NothingExpired(b, month, now, protected, n - 1);
    }
  }
}
