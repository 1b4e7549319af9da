// External drafts: submitted, approved by an owner, claimed once, dispatched at most once. A worker
// keeps the row it loaded; it compares with the stored row in one statement and writes in another,
// and others may write before, between and after.
module Drafts {
  import opened Wrappers
  import A = Adapters

  datatype Kind = EventbriteCreate | EventbriteUpdate | Campaign | Template

  datatype Status = Pending | Approved | Executing | Succeeded | Failed | Unknown

  // `review` is the digest of everything an owner reviews. Times are recorded as set or not.
  datatype Row = Row(kind: Kind, submitter: nat, review: nat, revision: nat, event: Option<nat>,
                     status: Status, approver: Option<nat>, claimed: bool, completed: bool,
                     receipt: bool, provider: Option<nat>, error: bool)

  // The outcome of an adapter call; `proper` says that the receipt is of the right type, request and
  // readback. An exception is definite if it proves that the provider refused.
  datatype Outcome = Receipt(confirmed: bool, provider: Option<nat>, error: bool, proper: bool) | Refusal | Uncertainty

  // The two models of the row's check constraints: approval, and the execution lifecycle.
  predicate Lifecycle(r: Row) {
    && (r.status == Pending ==> r.approver.None? && !r.claimed)
    && (r.status != Pending ==> r.approver.Some?)
    && match r.status {
         case Pending => !r.claimed && !r.completed && !r.receipt && r.provider.None? && !r.error
         case Approved => !r.claimed && !r.completed && !r.receipt && r.provider.None? && !r.error
         case Executing => r.claimed && !r.completed && !r.receipt && !r.error
         case Unknown => r.claimed && r.completed
         case Failed => r.claimed && r.completed
         case Succeeded => r.claimed && r.completed && r.receipt && r.provider.Some?
       }
  }

  predicate Allowed(from: Status, to: Status) {
    match from
    case Pending => to == Pending || to == Approved
    case Approved => to == Approved || to == Executing
    case Executing => to == Executing || to == Unknown || to == Failed || to == Succeeded
    case Unknown => to == Unknown || to == Succeeded
    case Failed => to == Failed
    case Succeeded => to == Succeeded
  }

  // What was reviewed.
  predicate SameReview(a: Row, b: Row) {
    a.kind == b.kind && a.submitter == b.submitter && a.review == b.review && a.revision == b.revision
      && a.event == b.event
  }

  // The comparison with the stored row before a loaded object is written over it.
  predicate Passes(stored: Row, row: Row) {
    && SameReview(stored, row) && (stored.approver.Some? ==> stored.approver == row.approver)
    && Allowed(stored.status, row.status) && (stored.claimed ==> row.claimed) && (stored.completed ==> row.completed)
  }

  // Comparison and write under the row's lock; None if the row is refused or breaks a constraint.
  function Save(stored: Row, row: Row): Option<Row> {
    if Passes(stored, row) && Lifecycle(row) then Some(row) else None
  }

  // The object that a worker has loaded, with the receipt in it; None if the receipt is not valid.
  function Received(loaded: Row, o: Outcome): Option<Row>
    requires o.Receipt?
  {
    if || !o.proper
       || (loaded.kind == EventbriteUpdate && o.provider.Some? && o.provider != loaded.event)
       || (loaded.provider.Some? && o.provider.Some? && o.provider != loaded.provider)
       || (o.confirmed && o.provider.None?) then None
    else
      Some(loaded.(receipt := true, provider := if o.provider.Some? then o.provider else loaded.provider,
                   status := if o.confirmed then Succeeded else Unknown, error := o.error, completed := true))
  }

  // The unconditional update that compares with nothing.
  function Overwrite(stored: Row, status: Status): Row {
    stored.(status := status, error := true, completed := true)
  }

  predicate Iterable(kind: Kind) {
    kind == Campaign || kind == Template
  }

  // ---------------------------------------------------------------- the protocol

  // A worker has claimed the row and will dispatch, has called its provider, reconciles, has passed
  // the comparison for the row it is going to write, or has failed and is going to overwrite.
  datatype Worker =
    | Claimed(key: nat, user: nat, loaded: Row)
    | Posted(key: nat, user: nat, loaded: Row)
    | Reconciling(key: nat, user: nat, loaded: Row)
    | Checked(key: nat, user: nat, loaded: Row, row: Row, dispatch: bool)
    | Failing(key: nat, user: nat, loaded: Row, status: Status, dispatch: bool)

  datatype Post = Post(key: nat, user: nat, review: nat)

  // Rows by the intent and step they execute. `approvals` and `posts` are everything ever approved
  // and everything ever sent to a provider with effect.
  datatype World = World(rows: map<nat, Row>, workers: map<nat, Worker>, approvals: set<Post>, posts: seq<Post>)

  // `valid` stands for the session and the revalidation of what was reviewed, `calls` for what an
  // adapter sends, in full or until it breaks off.
  datatype Step =
    | Submit(key: nat, user: nat, kind: Kind, review: nat, revision: nat, event: Option<nat>, valid: bool)
    | Approve(key: nat, user: nat, review: nat, revision: nat, valid: bool)
    | Claim(worker: nat, key: nat, user: nat, valid: bool)
    | Operate(worker: nat, calls: seq<A.Call>)
    | Hear(worker: nat, heard: Outcome)
    | Write(worker: nat, outcome: WriteOutcome)
    | Enforce(worker: nat)
    | Reconcile(worker: nat, key: nat, user: nat, valid: bool)
    | Crash(worker: nat)

  // The database takes a write, or refuses it, or takes it though the worker sees it fail.
  datatype WriteOutcome = Taken | Refused | Lost

  predicate Dispatching(k: Worker) {
    k.Claimed? || k.Posted? || ((k.Checked? || k.Failing?) && k.dispatch)
  }

  // What an exception leads to: a failed dispatch overwrites the row, and so does a failed
  // reconciliation of Iterable; one of Eventbrite just ends.
  function Fail(k: Worker, refused: bool): Option<Worker> {
    if Dispatching(k)
    then Some(Failing(k.key, k.user, k.loaded, if refused && !Iterable(k.loaded.kind) then Failed else Unknown, true))
    else if Iterable(k.loaded.kind) then Some(Failing(k.key, k.user, k.loaded, Unknown, false))
    else None
  }

  // The outcome of the provider call, and the comparison with the row as it is stored now.
  function AfterOutcome(stored: Row, k: Worker, o: Outcome): Option<Worker> {
    if o.Receipt? && Received(k.loaded, o).Some? && Passes(stored, Received(k.loaded, o).value)
    then Some(Checked(k.key, k.user, k.loaded, Received(k.loaded, o).value, Dispatching(k)))
    else Fail(k, o.Refusal?)
  }

  // The worker goes on, or is done.
  function Continue(w: World, worker: nat, k: Option<Worker>): World {
    w.(workers := if k.Some? then w.workers[worker := k.value] else w.workers - {worker})
  }

  function SubmitRow(w: World, key: nat, row: Row): (World, Option<Row>) {
    if key !in w.rows then (w.(rows := w.rows[key := row]), Some(row))
    else if w.rows[key].review != row.review || w.rows[key].submitter != row.submitter then (w, None)
    else (w, Some(w.rows[key]))
  }

  function ApproveRow(w: World, key: nat, user: nat, review: nat, revision: nat, valid: bool): World {
    if key !in w.rows || !valid then w
    else
      var r := w.rows[key];
      if r.status != Pending || review != r.review || revision != r.revision then w
      else
        var saved := Save(r, r.(approver := Some(user), status := Approved));
        if saved.None? then w
        else w.(rows := w.rows[key := saved.value], approvals := w.approvals + {Post(key, user, review)})
  }

  function ClaimRow(w: World, worker: nat, key: nat, user: nat, valid: bool): World {
    if key !in w.rows || worker in w.workers || !valid then w
    else
      var r := w.rows[key];
      if r.approver != Some(user) || r.status != Approved then w
      else
        var saved := Save(r,
                          r.(status := Executing, claimed := true,
                             provider := if r.kind == EventbriteUpdate then r.event else r.provider));
        if saved.None? then w
        else w.(rows := w.rows[key := saved.value], workers := w.workers[worker := Claimed(key, user, saved.value)])
  }

  // Eventbrite needs a recorded provider id, and so does a campaign; a template needs its claim.
  predicate Reconcilable(r: Row) {
    && (r.status == Unknown || r.status == Executing)
    && (r.kind == Template ==> r.claimed) && (r.kind == Campaign ==> r.claimed && r.provider.Some?)
    && (!Iterable(r.kind) ==> r.provider.Some?)
  }

  function BeginReconcile(w: World, worker: nat, key: nat, user: nat, valid: bool): World {
    if key !in w.rows || worker in w.workers || !valid then w
    else if w.rows[key].approver != Some(user) || !Reconcilable(w.rows[key]) then w
    else w.(workers := w.workers[worker := Reconciling(key, user, w.rows[key])])
  }

  // The posts among the calls of an operation.
  function Sent(k: Worker, calls: seq<A.Call>): seq<Post> {
    seq(A.Posts(calls), _ => Post(k.key, k.user, k.loaded.review))
  }

  function OperateWorker(w: World, worker: nat, calls: seq<A.Call>): World {
    if worker !in w.workers then w
    else
      var k := w.workers[worker];
      if k.Claimed? && A.Permitted(true, calls) then
        w.(posts := w.posts + Sent(k, calls), workers := w.workers[worker := Posted(k.key, k.user, k.loaded)])
      else if k.Reconciling? && A.Permitted(false, calls) then w.(posts := w.posts + Sent(k, calls))
      else w
  }

  function HearWorker(w: World, worker: nat, o: Outcome): World {
    if worker !in w.workers || w.workers[worker].key !in w.rows then w
    else
      var k := w.workers[worker];
      if k.Checked? || k.Failing? then w else Continue(w, worker, AfterOutcome(w.rows[k.key], k, o))
  }

  // The write is of the whole row; only the constraints are still enforced.
  function WriteWorker(w: World, worker: nat, outcome: WriteOutcome): World {
    if worker !in w.workers || !w.workers[worker].Checked? || w.workers[worker].key !in w.rows then w
    else
      var k := w.workers[worker];
      var m := if outcome != Refused && Lifecycle(k.row) then w.(rows := w.rows[k.key := k.row]) else w;
      Continue(m, worker, if outcome == Taken && Lifecycle(k.row) then None else Fail(k, false))
  }

  function EnforceWorker(w: World, worker: nat): World {
    if worker !in w.workers || !w.workers[worker].Failing? || w.workers[worker].key !in w.rows then w
    else
      var k := w.workers[worker];
      Continue(w.(rows := w.rows[k.key := Overwrite(w.rows[k.key], k.status)]), worker, None)
  }

  function Next(w: World, s: Step): World {
    match s
    case Submit(key, user, kind, review, revision, event, valid) =>
      var row := Row(kind, user, review, revision, event, Pending, None, false, false, false, None, false);
      if valid then SubmitRow(w, key, row).0 else w
    case Approve(key, user, review, revision, valid) => ApproveRow(w, key, user, review, revision, valid)
    case Claim(worker, key, user, valid) => ClaimRow(w, worker, key, user, valid)
    case Operate(worker, calls) => OperateWorker(w, worker, calls)
    case Hear(worker, heard) => HearWorker(w, worker, heard)
    case Write(worker, outcome) => WriteWorker(w, worker, outcome)
    case Enforce(worker) => EnforceWorker(w, worker)
    case Reconcile(worker, key, user, valid) => BeginReconcile(w, worker, key, user, valid)
    case Crash(worker) => w.(workers := w.workers - {worker})
  }

  function Run(w: World, steps: seq<Step>): World {
    if steps == [] then w else Next(Run(w, steps[..|steps| - 1]), steps[|steps| - 1])
  }

  function Init(): World {
    World(map[], map[], {}, [])
  }

  // ---------------------------------------------------------------- the invariant

  predicate RowsOk(w: World) {
    forall k | k in w.rows ::
      Lifecycle(w.rows[k])
        && (w.rows[k].approver.Some? ==> Post(k, w.rows[k].approver.value, w.rows[k].review) in w.approvals)
  }

  // The object a worker is going to write is of a claimed operation, with the approval it loaded.
  predicate Ready(row: Row, loaded: Row) {
    SameReview(row, loaded) && row.approver == loaded.approver && row.claimed && row.completed && Lifecycle(row)
    && (row.status == Succeeded || row.status == Unknown)
  }

  predicate Holds(w: World, k: Worker) {
    && k.key in w.rows && w.rows[k.key].claimed && w.rows[k.key].approver == Some(k.user) == k.loaded.approver
    && SameReview(k.loaded, w.rows[k.key]) && k.loaded.claimed
    && Post(k.key, k.user, k.loaded.review) in w.approvals
    && (k.Checked? ==> Ready(k.row, k.loaded))
    && (k.Failing? ==> (k.dispatch || Iterable(k.loaded.kind)) && (k.status == Unknown || k.status == Failed))
  }

  predicate OneDispatcher(w: World) {
    forall i, j | i in w.workers && j in w.workers && w.workers[i].key == w.workers[j].key
                  && Dispatching(w.workers[i]) && Dispatching(w.workers[j]) :: i == j
  }

  predicate ClaimedUnposted(w: World) {
    forall i | i in w.workers && w.workers[i].Claimed? :: forall p | p in w.posts :: p.key != w.workers[i].key
  }

  predicate WorkersOk(w: World) {
    (forall i | i in w.workers :: Holds(w, w.workers[i])) && OneDispatcher(w) && ClaimedUnposted(w)
  }

  // Every post is of a claimed operation, approved as it was sent by the user that sent it; no two
  // are of the same operation.
  predicate PostsOk(w: World) {
    && (forall p | p in w.posts :: p in w.approvals && p.key in w.rows && w.rows[p.key].claimed
                                   && w.rows[p.key].review == p.review && w.rows[p.key].approver == Some(p.user))
    && (forall i, j | 0 <= i < j < |w.posts| :: w.posts[i].key != w.posts[j].key)
  }

  predicate Sound(w: World) {
    RowsOk(w) && WorkersOk(w) && PostsOk(w)
  }

  // What no step undoes: a row, what was reviewed, its approval and its claim.
  predicate RowExtends(a: Row, b: Row) {
    && SameReview(a, b)
    && (a.approver.Some? ==> b.approver == a.approver)
    && (a.claimed ==> b.claimed)
    && (a.completed ==> b.completed)
  }

  predicate Extends(w: World, m: World) {
    && (forall k | k in w.rows :: k in m.rows && RowExtends(w.rows[k], m.rows[k]))
    && w.posts <= m.posts && w.approvals <= m.approvals
  }

  lemma ExtendsOn(w: World, m: World, n: World)
    requires Extends(w, m) && Extends(m, n)
    ensures Extends(w, n)
  {
  }

  lemma ExtendsSelf(w: World)
    ensures Extends(w, w)
  {
  }

  lemma FewerWorkers(w: World, m: World)
    requires OneDispatcher(w) && ClaimedUnposted(w) && m.posts == w.posts
    requires forall i | i in m.workers :: i in w.workers && m.workers[i] == w.workers[i]
    ensures OneDispatcher(m) && ClaimedUnposted(m)
  {
    hide Dispatching;
  }

  // One row changes, with workers that hold it staying or leaving.
  lemma RowSound(w: World, m: World, key: nat)
    requires Sound(w) && key in w.rows && key in m.rows && m.rows == w.rows[key := m.rows[key]]
    requires m.posts == w.posts && w.approvals <= m.approvals
    requires forall i | i in m.workers :: i in w.workers && m.workers[i] == w.workers[i]
    requires Lifecycle(m.rows[key]) && RowExtends(w.rows[key], m.rows[key])
    requires m.rows[key].approver.Some? ==> Post(key, m.rows[key].approver.value, m.rows[key].review) in m.approvals
    ensures Sound(m) && Extends(w, m)
  {
    hide Lifecycle, Ready, Dispatching;
    FewerWorkers(w, m);
    assert PostsOk(m);
    assert RowsOk(m);
    hide RowsOk, PostsOk, OneDispatcher, ClaimedUnposted;
    forall i | i in m.workers ensures Holds(m, m.workers[i]) {
      assert Holds(w, w.workers[i]);
    }
  }

  lemma SaveKeeps(stored: Row, row: Row)
    requires Save(stored, row).Some?
    ensures Save(stored, row) == Some(row) && Lifecycle(row) && RowExtends(stored, row) && SameReview(row, row)
  {
  }

  lemma ApproveSound(w: World, key: nat, user: nat, review: nat, revision: nat, valid: bool)
    requires Sound(w)
    ensures var m := ApproveRow(w, key, user, review, revision, valid); Sound(m) && Extends(w, m)
  {
    hide Sound, Extends, Save, RowExtends, Lifecycle;
    ExtendsSelf(w);
    var m := ApproveRow(w, key, user, review, revision, valid);
    if m != w {
      SaveKeeps(w.rows[key], w.rows[key].(approver := Some(user), status := Approved));
      RowSound(w, m, key);
    }
  }

  lemma HolderAlone(w: World, worker: nat, k: Worker)
    requires OneDispatcher(w) && ClaimedUnposted(w)
    requires worker in w.workers ==> w.workers[worker].key == k.key && Dispatching(w.workers[worker]) == Dispatching(k)
    requires worker !in w.workers && Dispatching(k) ==> forall i | i in w.workers :: w.workers[i].key != k.key
    requires k.Claimed? ==> forall p | p in w.posts :: p.key != k.key
    ensures var m := w.(workers := w.workers[worker := k]); OneDispatcher(m) && ClaimedUnposted(m)
  {
    hide Dispatching;
  }

  // A worker that newly holds a claimed and approved row, or goes on.
  lemma HolderSound(w: World, worker: nat, k: Worker)
    requires Sound(w) && Holds(w, k)
    requires worker in w.workers ==> w.workers[worker].key == k.key && Dispatching(w.workers[worker]) == Dispatching(k)
    requires worker !in w.workers && Dispatching(k) ==> forall i | i in w.workers :: w.workers[i].key != k.key
    requires k.Claimed? ==> forall p | p in w.posts :: p.key != k.key
    ensures Sound(w.(workers := w.workers[worker := k]))
  {
    hide Lifecycle, SameReview, Ready, Dispatching, OneDispatcher, ClaimedUnposted;
    var m := w.(workers := w.workers[worker := k]);
    HolderAlone(w, worker, k);
    assert PostsOk(m) && RowsOk(m);
    forall i | i in m.workers ensures Holds(m, m.workers[i]) {
      assert i != worker ==> Holds(w, w.workers[i]);
    }
  }

  // An unclaimed operation has no worker and no post.
  lemma Unclaimed(w: World, key: nat)
    requires Sound(w) && key in w.rows && !w.rows[key].claimed
    ensures (forall p | p in w.posts :: p.key != key) && forall i | i in w.workers :: w.workers[i].key != key
  {
    forall i | i in w.workers ensures w.workers[i].key != key {
      assert Holds(w, w.workers[i]);
    }
  }

  lemma ApprovedAs(w: World, key: nat, user: nat)
    requires Sound(w) && key in w.rows && w.rows[key].approver == Some(user)
    ensures Post(key, user, w.rows[key].review) in w.approvals && Lifecycle(w.rows[key])
  {
  }

  lemma ClaimSound(w: World, worker: nat, key: nat, user: nat, valid: bool)
    requires Sound(w)
    ensures var m := ClaimRow(w, worker, key, user, valid); Sound(m) && Extends(w, m)
  {
    hide Sound, Extends, Save;
    ExtendsSelf(w);
    var m := ClaimRow(w, worker, key, user, valid);
    if m != w {
      ApprovedAs(w, key, user);
      var r := w.rows[key];
      SaveKeeps(r,
                r.(status := Executing, claimed := true,
                   provider := if r.kind == EventbriteUpdate then r.event else r.provider));
      Unclaimed(w, key);
      var saved := w.(rows := m.rows);
      RowSound(w, saved, key);
      ApprovedAs(saved, key, user);
      HolderSound(saved, worker, m.workers[worker]);
      SameRows(w, saved, m);
    }
  }

  lemma SameRows(w: World, m: World, n: World)
    requires Extends(w, m) && n.rows == m.rows && n.posts == m.posts && n.approvals == m.approvals
    ensures Extends(w, n)
  {
  }

  lemma ReconcileSound(w: World, worker: nat, key: nat, user: nat, valid: bool)
    requires Sound(w)
    ensures var m := BeginReconcile(w, worker, key, user, valid); Sound(m) && Extends(w, m)
  {
    hide Sound, Extends;
    ExtendsSelf(w);
    var m := BeginReconcile(w, worker, key, user, valid);
    if m != w {
      ApprovedAs(w, key, user);
      HolderSound(w, worker, m.workers[worker]);
      SameRows(w, w, m);
    }
  }

  // A dispatch sends what its adapter may send.
  lemma PostSound(w: World, worker: nat, calls: seq<A.Call>)
    requires Sound(w) && worker in w.workers && w.workers[worker].Claimed? && A.Permitted(true, calls)
    ensures var m := OperateWorker(w, worker, calls); Sound(m) && Extends(w, m)
  {
    hide Lifecycle, SameReview, Ready, A.Posts;
    var k, m := w.workers[worker], OperateWorker(w, worker, calls);
    assert Holds(w, k);
    ReviewHeld(w, k);
    ReviewSelf();
    assert RowsOk(m);
    forall i | i in m.workers ensures Holds(m, m.workers[i]) {
      assert Holds(w, w.workers[i]);
    }
    assert PostsOk(m);
  }

  lemma OperateSound(w: World, worker: nat, calls: seq<A.Call>)
    requires Sound(w)
    ensures var m := OperateWorker(w, worker, calls); Sound(m) && Extends(w, m)
  {
    hide Sound, Extends, A.Posts;
    ExtendsSelf(w);
    if worker in w.workers && w.workers[worker].Claimed? && A.Permitted(true, calls) {
      PostSound(w, worker, calls);
    } else {
      NothingSent(w, worker, calls);
    }
  }

  // A reconciliation sends nothing with effect.
  lemma NothingSent(w: World, worker: nat, calls: seq<A.Call>)
    requires !(worker in w.workers && w.workers[worker].Claimed? && A.Permitted(true, calls))
    ensures OperateWorker(w, worker, calls) == w
  {
    hide A.Posts;
    if worker in w.workers && A.Permitted(false, calls) {
      assert Sent(w.workers[worker], calls) == [];
      assert w.posts + [] == w.posts;
    }
  }

  lemma ReviewHeld(w: World, k: Worker)
    requires Holds(w, k)
    ensures k.loaded.review == w.rows[k.key].review
  {
  }

  lemma HeldBy(w: World, worker: nat)
    requires Sound(w) && worker in w.workers
    ensures Holds(w, w.workers[worker])
  {
  }

  lemma LeaveSound(w: World, worker: nat)
    requires Sound(w)
    ensures Sound(w.(workers := w.workers - {worker})) && Extends(w, w.(workers := w.workers - {worker}))
  {
    hide Lifecycle, Ready;
    var m := w.(workers := w.workers - {worker});
    forall i | i in m.workers ensures Holds(m, m.workers[i]) {
      assert Holds(w, w.workers[i]);
    }
    assert RowsOk(m) && PostsOk(m);
  }

  // A worker goes on with the same row, or leaves.
  lemma ContinueSound(w: World, worker: nat, k: Option<Worker>)
    requires Sound(w) && worker in w.workers
    requires k.Some? ==> Holds(w, k.value) && k.value.key == w.workers[worker].key && !k.value.Claimed?
                         && Dispatching(k.value) == Dispatching(w.workers[worker])
    ensures Sound(Continue(w, worker, k)) && Extends(w, Continue(w, worker, k))
  {
    hide Sound, Extends, Holds;
    ExtendsSelf(w);
    if k.Some? {
      HolderSound(w, worker, k.value);
      SameRows(w, w, Continue(w, worker, k));
    } else {
      LeaveSound(w, worker);
    }
  }

  lemma FailHolds(w: World, k: Worker, refused: bool)
    requires Holds(w, k)
    ensures var f := Fail(k, refused);
            f.Some? ==>
              Holds(w, f.value) && f.value.key == k.key && f.value.Failing? && Dispatching(f.value) == Dispatching(k)
  {
    hide Lifecycle, Ready;
  }

  lemma OutcomeHolds(w: World, k: Worker, o: Outcome)
    requires Holds(w, k)
    ensures var f := AfterOutcome(w.rows[k.key], k, o);
            f.Some? ==>
              Holds(w, f.value) && f.value.key == k.key && !f.value.Claimed? && Dispatching(f.value) == Dispatching(k)
  {
    FailHolds(w, k, o.Refusal?);
  }

  lemma HearSound(w: World, worker: nat, o: Outcome)
    requires Sound(w)
    ensures var m := HearWorker(w, worker, o); Sound(m) && Extends(w, m)
  {
    hide Sound, Extends, Holds, AfterOutcome;
    ExtendsSelf(w);
    if worker in w.workers && w.workers[worker].key in w.rows {
      var k := w.workers[worker];
      HeldBy(w, worker);
      OutcomeHolds(w, k, o);
      if !k.Checked? && !k.Failing? {
        ContinueSound(w, worker, AfterOutcome(w.rows[k.key], k, o));
      }
    }
  }

  // Whatever a late worker writes, the row keeps its constraints and what cannot be undone.
  lemma WrittenRow(w: World, k: Worker)
    requires Holds(w, k)
    ensures k.Checked? ==> Lifecycle(k.row) && RowExtends(w.rows[k.key], k.row) && k.row.approver == Some(k.user)
    ensures k.Failing? && Lifecycle(w.rows[k.key]) ==>
              var row := Overwrite(w.rows[k.key], k.status);
              Lifecycle(row) && RowExtends(w.rows[k.key], row) && row.approver == Some(k.user)
  {
  }

  lemma WriteSound(w: World, worker: nat, outcome: WriteOutcome)
    requires Sound(w)
    ensures var m := WriteWorker(w, worker, outcome); Sound(m) && Extends(w, m)
  {
    hide Sound, Extends, Holds, Fail, Lifecycle, RowExtends;
    ExtendsSelf(w);
    if worker in w.workers && w.workers[worker].Checked? && w.workers[worker].key in w.rows {
      var k := w.workers[worker];
      HeldBy(w, worker);
      WrittenRow(w, k);
      var m := w;
      if outcome != Refused {
        m := w.(rows := w.rows[k.key := k.row]);
        HeldApproval(w, k);
        RowSound(w, m, k.key);
        HeldBy(m, worker);
      }
      FailHolds(m, k, false);
      var next := if outcome == Taken then None else Fail(k, false);
      ContinueSound(m, worker, next);
      ExtendsOn(w, m, Continue(m, worker, next));
    }
  }

  lemma HeldApproval(w: World, k: Worker)
    requires Holds(w, k)
    ensures Post(k.key, k.user, w.rows[k.key].review) in w.approvals
    ensures k.Checked? ==> k.row.review == w.rows[k.key].review
  {
  }

  lemma EnforceSound(w: World, worker: nat)
    requires Sound(w)
    ensures var m := EnforceWorker(w, worker); Sound(m) && Extends(w, m)
  {
    hide Sound, Extends, Holds, Lifecycle, RowExtends;
    ExtendsSelf(w);
    if worker in w.workers && w.workers[worker].Failing? && w.workers[worker].key in w.rows {
      var k, m := w.workers[worker], EnforceWorker(w, worker);
      HeldBy(w, worker);
      HeldClaim(w, k);
      ApprovedAs(w, k.key, k.user);
      WrittenRow(w, k);
      RowSound(w, m, k.key);
    }
  }

  lemma HeldClaim(w: World, k: Worker)
    requires Holds(w, k)
    ensures w.rows[k.key].claimed && w.rows[k.key].approver == Some(k.user)
  {
  }

  lemma SubmitSound(w: World, key: nat, row: Row)
    requires Sound(w) && Lifecycle(row) && row.status == Pending
    ensures var m := SubmitRow(w, key, row).0; Sound(m) && Extends(w, m)
  {
    hide SameReview, Lifecycle, Ready;
    var m := SubmitRow(w, key, row).0;
    ReviewSelf();
    assert PostsOk(m);
    PendingOpen(row);
    forall i | i in m.workers ensures Holds(m, m.workers[i]) {
      assert Holds(w, w.workers[i]);
    }
  }

  lemma PendingOpen(row: Row)
    requires Lifecycle(row) && row.status == Pending
    ensures row.approver.None?
  {
  }

  lemma ReviewSelf()
    ensures forall r: Row :: SameReview(r, r)
  {
  }

  lemma NextSound(w: World, s: Step)
    requires Sound(w)
    ensures Sound(Next(w, s)) && Extends(w, Next(w, s))
  {
    hide Sound, Extends, ApproveRow, ClaimRow, BeginReconcile, OperateWorker, HearWorker, WriteWorker, EnforceWorker,
         SubmitRow;
    ExtendsSelf(w);
    match s {
      case Submit(key, user, kind, review, revision, event, valid) =>
        if valid {
          SubmitSound(w, key,
                      Row(kind, user, review, revision, event, Pending, None, false, false, false, None, false));
        }
      case Approve(key, user, review, revision, valid) => ApproveSound(w, key, user, review, revision, valid);
      case Claim(worker, key, user, valid) => ClaimSound(w, worker, key, user, valid);
      case Operate(worker, calls) => OperateSound(w, worker, calls);
      case Hear(worker, heard) => HearSound(w, worker, heard);
      case Write(worker, outcome) => WriteSound(w, worker, outcome);
      case Enforce(worker) => EnforceSound(w, worker);
      case Reconcile(worker, key, user, valid) => ReconcileSound(w, worker, key, user, valid);
      case Crash(worker) => LeaveSound(w, worker);
    }
  }

  lemma {:induction false} AlwaysSound(w: World, steps: seq<Step>)
    requires Sound(w)
    ensures Sound(Run(w, steps)) && Extends(w, Run(w, steps))
  {
    hide Sound, Extends, Next;
    ExtendsSelf(w);
    if steps != [] {
      var before := Run(w, steps[..|steps| - 1]);
      AlwaysSound(w, steps[..|steps| - 1]);
      NextSound(before, steps[|steps| - 1]);
      ExtendsOn(w, before, Next(before, steps[|steps| - 1]));
    }
  }

  // Over any interleaving, at most one post is ever sent for an operation, and only one that its
  // approver sent and approved with exactly the review the row still has.
  lemma AtMostOnePost(steps: seq<Step>)
    ensures var w := Run(Init(), steps);
            && (forall i, j | 0 <= i < j < |w.posts| :: w.posts[i].key != w.posts[j].key)
            && (forall p | p in w.posts :: p in w.approvals && p.key in w.rows && w.rows[p.key].claimed
                                           && w.rows[p.key].review == p.review
                                           && w.rows[p.key].approver == Some(p.user))
  {
    hide Next;
    AlwaysSound(Init(), steps);
  }

  // Whatever happens, neither what was reviewed, nor the approval, nor the claim is ever changed, and a
  // claimed row is never claimed again.
  lemma RowsKept(steps: seq<Step>, more: seq<Step>, key: nat)
    requires key in Run(Init(), steps).rows
    ensures var w, m := Run(Init(), steps), Run(Run(Init(), steps), more);
            && key in m.rows
            && var r, r' := w.rows[key], m.rows[key];
               && r'.kind == r.kind && r'.submitter == r.submitter && r'.review == r.review && r'.revision == r.revision
               && r'.event == r.event && (r.approver.Some? ==> r'.approver == r.approver)
               && (r.claimed ==> r'.claimed) && (r.completed ==> r'.completed)
               && (r.claimed ==> forall worker, user :: ClaimRow(m, worker, key, user, true) == m)
  {
    hide Next, Lifecycle;
    InitSound();
    AlwaysSound(Init(), steps);
    AlwaysSound(Run(Init(), steps), more);
    ClaimOnce(Run(Run(Init(), steps), more), key);
  }

  // Every row shows where it is, although two updates bypass the comparison.
  lemma RowShows(steps: seq<Step>, key: nat)
    requires key in Run(Init(), steps).rows
    ensures var r := Run(Init(), steps).rows[key];
            && (r.approver.None? <==> r.status == Pending)
            && (r.claimed <==>
                  r.status == Executing || r.status == Unknown || r.status == Failed || r.status == Succeeded)
            && (r.completed <==> r.status == Unknown || r.status == Failed || r.status == Succeeded)
            && (r.receipt || r.error ==> r.completed) && (r.provider.Some? ==> r.claimed)
            && (r.status == Succeeded ==> r.receipt && r.provider.Some?)
  {
    hide Next;
    InitSound();
    AlwaysSound(Init(), steps);
    RowAt(Run(Init(), steps), key);
  }

  lemma RowAt(w: World, key: nat)
    requires Sound(w) && key in w.rows
    ensures Lifecycle(w.rows[key])
  {
  }

  lemma ClaimOnce(w: World, key: nat)
    requires key in w.rows && Lifecycle(w.rows[key])
    ensures w.rows[key].claimed ==> forall worker, user :: ClaimRow(w, worker, key, user, true) == w
  {
  }

  // A submission is made once: the same one, by the same user, is answered with the row as it is by now.
  lemma SubmitsOnce(w: World, key: nat, row: Row)
    ensures var (m, r) := SubmitRow(w, key, row);
            if key !in w.rows then m == w.(rows := w.rows[key := row]) && r == Some(row)
            else && m == w && (r.Some? <==> w.rows[key].review == row.review && w.rows[key].submitter == row.submitter)
                 && (r.Some? ==> r == Some(w.rows[key]))
  {
  }

  // In a sound world Save stands in the way of neither an approval nor a claim: an approval takes
  // effect exactly for the pending review and revision, a claim exactly for the approving user.
  lemma ApprovesExactly(w: World, key: nat, user: nat, review: nat, revision: nat, valid: bool)
    requires Sound(w) && key in w.rows
    ensures var r := w.rows[key];
            var m := ApproveRow(w, key, user, review, revision, valid);
            if valid && r.status == Pending && review == r.review && revision == r.revision
            then key in m.rows && m.rows[key] == r.(approver := Some(user), status := Approved) else m == w
  {
    hide WorkersOk, PostsOk;
  }

  lemma ClaimsExactly(w: World, worker: nat, key: nat, user: nat, valid: bool)
    requires Sound(w) && key in w.rows && worker !in w.workers
    ensures var r := w.rows[key];
            var m := ClaimRow(w, worker, key, user, valid);
            if valid && r.status == Approved && r.approver == Some(user)
            then key in m.rows && m.rows[key].status == Executing && m.rows[key].claimed && worker in m.workers
                 else m == w
  {
    hide WorkersOk, PostsOk;
  }

  // A reconciliation begins exactly for the approving user, while the outcome of a claimed operation is
  // open, and unless it is of a template its provider id must be known.
  lemma ReconcilesExactly(w: World, worker: nat, key: nat, user: nat, valid: bool)
    requires Sound(w) && key in w.rows && worker !in w.workers
    ensures var r := w.rows[key];
            var begins := && valid && r.approver == Some(user) && (r.status == Unknown || r.status == Executing)
                          && (r.provider.Some? || r.kind == Template);
            BeginReconcile(w, worker, key, user, valid)
            == if begins then w.(workers := w.workers[worker := Reconciling(key, user, r)]) else w
  {
    hide WorkersOk, PostsOk;
  }

  // A received object keeps the provider id that the worker knew, and is never of another event.
  lemma ReceiptKeeps(loaded: Row, o: Outcome)
    requires o.Receipt? && Received(loaded, o).Some?
    ensures var row := Received(loaded, o).value;
            && (loaded.provider.Some? ==> row.provider == loaded.provider)
            && (o.provider.Some? ==> row.provider == o.provider)
            && (loaded.kind == EventbriteUpdate && o.provider.Some? ==> row.provider == loaded.event)
            && row.status == (if o.confirmed then Succeeded else Unknown) && SameReview(loaded, row)
  {
  }

  // ---------------------------------------------------------------- where an end comes from

  // A worker that has still to hear of its provider call.
  predicate Waiting(w: World, worker: nat, key: nat) {
    && worker in w.workers && w.workers[worker].key == key
    && !w.workers[worker].Checked? && !w.workers[worker].Failing?
  }

  predicate OfEventbrite(kind: Kind) {
    kind == EventbriteCreate || kind == EventbriteUpdate
  }

  // A dispatch to Eventbrite hears that the provider refused.
  predicate RefusedBy(w: World, s: Step, key: nat) {
    && s.Hear? && s.heard == Refusal && Waiting(w, s.worker, key)
    && Dispatching(w.workers[s.worker]) && OfEventbrite(w.workers[s.worker].loaded.kind)
  }

  // A worker of the operation hears a proper confirmation of this id, which is the one it knew, and
  // that of the event if one was to be updated.
  predicate ConfirmedBy(w: World, s: Step, key: nat, provider: nat) {
    && s.Hear? && s.heard.Receipt? && s.heard.confirmed && s.heard.proper && Waiting(w, s.worker, key)
    && var loaded := w.workers[s.worker].loaded;
       && (s.heard.provider == Some(provider))
       && (loaded.provider.Some? ==> loaded.provider == Some(provider))
       && (loaded.kind == EventbriteUpdate ==> loaded.event == Some(provider))
  }

  // The row has failed, or is going to.
  predicate Fails(w: World, key: nat) {
    || (key in w.rows && w.rows[key].status == Failed)
    || exists i :: i in w.workers && w.workers[i].key == key && w.workers[i].Failing? && w.workers[i].status == Failed
  }

  predicate Succeeding(r: Row, provider: nat) {
    r.status == Succeeded && r.provider == Some(provider)
  }

  // The row has succeeded with this id, or is going to.
  predicate SucceedsAs(w: World, key: nat, provider: nat) {
    || (key in w.rows && Succeeding(w.rows[key], provider))
    || exists i :: i in w.workers && w.workers[i].key == key && w.workers[i].Checked?
                   && Succeeding(w.workers[i].row, provider)
  }

  // Only a worker's own steps let it pass the comparison or fail, and only its writes end a row.
  lemma StepMoves(w: World, s: Step)
    ensures var m := Next(w, s);
            && (forall i | i in m.workers && (m.workers[i].Checked? || m.workers[i].Failing?) ::
                  || (i in w.workers && m.workers[i] == w.workers[i])
                  || ((s.Hear? || s.Write?) && s.worker == i && i in w.workers))
            && (forall k | k in m.rows && (m.rows[k].status == Succeeded || m.rows[k].status == Failed) ::
                  || (k in w.rows && m.rows[k] == w.rows[k])
                  || ((s.Write? || s.Enforce?) && s.worker in w.workers && w.workers[s.worker].key == k))
  {
    hide Lifecycle, Passes, A.Posts, A.Permitted, Sent, AfterOutcome, Fail;
  }

  // What a worker's own step makes of it and of its row.
  lemma OwnStep(w: World, s: Step)
    requires Sound(w) && (s.Hear? || s.Write? || s.Enforce?) && s.worker in w.workers
    ensures var k, m := w.workers[s.worker], Next(w, s);
            && k.key in m.rows
            && (s.worker in m.workers && m.workers[s.worker] != k ==>
                  var k' := m.workers[s.worker];
                  && k'.key == k.key
                  && (k'.Failing? && k'.status == Failed ==> RefusedBy(w, s, k.key))
                  && (k'.Checked? && k'.row.status == Succeeded ==>
                        k'.row.provider.Some? && ConfirmedBy(w, s, k.key, k'.row.provider.value)))
            && (m.rows[k.key] != w.rows[k.key] ==>
                  || (k.Checked? && m.rows[k.key] == k.row && k.row.status != Failed)
                  || (k.Failing? && m.rows[k.key].status == k.status && k.status != Succeeded))
  {
    hide Sound, Lifecycle, Passes;
    HeldBy(w, s.worker);
    hide SameReview;
  }

  lemma NextFails(w: World, s: Step, key: nat)
    requires Sound(w)
    ensures Fails(Next(w, s), key) ==> Fails(w, key) || RefusedBy(w, s, key)
  {
    hide Sound, Next, RefusedBy, ConfirmedBy;
    var m := Next(w, s);
    StepMoves(w, s);
    if (s.Hear? || s.Write? || s.Enforce?) && s.worker in w.workers {
      HeldBy(w, s.worker);
      OwnStep(w, s);
    }
    if i :| i in m.workers && m.workers[i].key == key && m.workers[i].Failing? && m.workers[i].status == Failed {
      assert i in w.workers;
    }
  }

  lemma NextSucceeds(w: World, s: Step, key: nat, provider: nat)
    requires Sound(w)
    ensures SucceedsAs(Next(w, s), key, provider) ==> SucceedsAs(w, key, provider) || ConfirmedBy(w, s, key, provider)
  {
    hide Sound, Next, RefusedBy, ConfirmedBy;
    var m := Next(w, s);
    StepMoves(w, s);
    if (s.Hear? || s.Write? || s.Enforce?) && s.worker in w.workers {
      HeldBy(w, s.worker);
      OwnStep(w, s);
    }
    if i :| && i in m.workers && m.workers[i].key == key && m.workers[i].Checked?
            && Succeeding(m.workers[i].row, provider) {
      assert i in w.workers;
    }
  }

  predicate RefusedBefore(w: World, steps: seq<Step>, key: nat) {
    exists i | 0 <= i < |steps| :: RefusedBy(Run(w, steps[..i]), steps[i], key)
  }

  predicate ConfirmedBefore(w: World, steps: seq<Step>, key: nat, provider: nat) {
    exists i | 0 <= i < |steps| :: ConfirmedBy(Run(w, steps[..i]), steps[i], key, provider)
  }

  lemma BeforeMore(w: World, steps: seq<Step>, key: nat, provider: nat)
    requires steps != []
    ensures var front, last := steps[..|steps| - 1], steps[|steps| - 1];
            && (RefusedBefore(w, front, key) || RefusedBy(Run(w, front), last, key) ==> RefusedBefore(w, steps, key))
            && (ConfirmedBefore(w, front, key, provider) || ConfirmedBy(Run(w, front), last, key, provider) ==>
                  ConfirmedBefore(w, steps, key, provider))
  {
    hide Run, RefusedBy, ConfirmedBy;
    var front := steps[..|steps| - 1];
    forall i | 0 <= i < |front| ensures front[..i] == steps[..i] && front[i] == steps[i] {
    }
  }

  // In every run an operation has failed only if its dispatch heard from Eventbrite that it was
  // refused, and has succeeded only if a worker of it heard that very id confirmed.
  lemma {:induction false} EndsOnlyTold(steps: seq<Step>, key: nat, provider: nat)
    ensures var w := Run(Init(), steps);
            && (Fails(w, key) ==> RefusedBefore(Init(), steps, key))
            && (SucceedsAs(w, key, provider) ==> ConfirmedBefore(Init(), steps, key, provider))
  {
    hide Sound, Next, Fails, SucceedsAs, RefusedBefore, ConfirmedBefore, RefusedBy, ConfirmedBy;
    if steps == [] {
      NothingEnds(key, provider);
    } else {
      var front := steps[..|steps| - 1];
      EndsOnlyTold(front, key, provider);
      InitSound();
      AlwaysSound(Init(), front);
      NextFails(Run(Init(), front), steps[|steps| - 1], key);
      NextSucceeds(Run(Init(), front), steps[|steps| - 1], key, provider);
      BeforeMore(Init(), steps, key, provider);
    }
  }

  lemma NothingEnds(key: nat, provider: nat)
    ensures !Fails(Init(), key) && !SucceedsAs(Init(), key, provider)
  {
  }

  // A receipt that may be stored: proper, of no other id than the worker knows or was to update, and with
  // an id if it confirms.
  predicate Valid(loaded: Row, o: Outcome) {
    && o.Receipt? && o.proper && (o.confirmed ==> o.provider.Some?)
    && (o.provider.Some? ==>
          && (loaded.provider.None? || loaded.provider == o.provider)
          && (loaded.kind != EventbriteUpdate || loaded.event == o.provider))
  }

  // A worker passes the comparison exactly with a valid receipt, as long as the operation has not failed
  // and has not succeeded without this receipt confirming it; the object it is then going to write is what
  // it loaded, with the receipt.
  lemma ComparesExactly(w: World, worker: nat, key: nat, o: Outcome)
    requires Sound(w) && Waiting(w, worker, key)
    ensures key in w.rows
    ensures var k, m, status := w.workers[worker], Next(w, Hear(worker, o)), w.rows[key].status;
            var passes := && Valid(k.loaded, o) && status != Failed && (status == Succeeded ==> o.confirmed);
            && m.rows == w.rows && m.posts == w.posts && m.approvals == w.approvals
            && (worker in m.workers && m.workers[worker].Checked? <==> passes)
            && (passes ==>
                  && m.workers[worker].key == key && m.workers[worker].loaded == k.loaded
                  && m.workers[worker].dispatch == Dispatching(k)
                  && m.workers[worker].row
                     == k.loaded.(receipt := true, completed := true, error := o.error,
                                  status := if o.confirmed then Succeeded else Unknown,
                                  provider := if o.provider.Some? then o.provider else k.loaded.provider))
  {
    hide Sound;
    HeldBy(w, worker);
    RowAt(w, key);
  }

  // The failing worker stays as it is until it overwrites the row or crashes.
  predicate Gone(steps: seq<Step>, worker: nat) {
    exists s :: s in steps && (s == Crash(worker) || s == Enforce(worker))
  }

  lemma {:induction false} FailingStays(w: World, steps: seq<Step>, worker: nat)
    requires worker in w.workers && w.workers[worker].Failing? && w.workers[worker].key in w.rows
             && !Gone(steps, worker)
    ensures var m := Run(w, steps);
            worker in m.workers && m.workers[worker] == w.workers[worker] && w.workers[worker].key in m.rows
  {
    if steps != [] {
      var front, s := steps[..|steps| - 1], steps[|steps| - 1];
      assert s in steps && forall t | t in front :: t in steps;
      hide Run, Gone, Save, AfterOutcome, A.Posts, A.Permitted, Sent;
      RunLast(w, steps);
      GoneLess(front, steps, worker);
      FailingStays(w, front, worker);
    }
  }

  lemma RunLast(w: World, steps: seq<Step>)
    requires steps != []
    ensures Run(w, steps) == Next(Run(w, steps[..|steps| - 1]), steps[|steps| - 1])
  {
  }

  lemma GoneLess(front: seq<Step>, steps: seq<Step>, worker: nat)
    requires !Gone(steps, worker) && forall t | t in front :: t in steps
    ensures !Gone(front, worker)
  {
  }

  // The worker hears anything but a valid receipt that passes, or its write is refused or seen to fail.
  predicate Unconfirmed(w: World, s: Step, worker: nat) {
    && worker in w.workers && w.workers[worker].key in w.rows
    && var k := w.workers[worker];
       || (&& s.Hear? && s.worker == worker && Waiting(w, worker, k.key)
           && !(s.heard.Receipt? && Received(k.loaded, s.heard).Some?
                && Passes(w.rows[k.key], Received(k.loaded, s.heard).value)))
       || (s.Write? && s.worker == worker && k.Checked? && s.outcome != Taken)
  }

  // Then a dispatch, and a reconciliation of Iterable, ends with the row unknown, whatever happens in
  // between, unless Eventbrite refused the dispatch: only then the row has failed. A reconciliation of
  // Eventbrite just ends.
  lemma UnconfirmedEnds(w: World, s: Step, worker: nat, more: seq<Step>)
    requires Sound(w) && Unconfirmed(w, s, worker) && !Gone(more, worker)
    ensures var k, m := w.workers[worker], Next(w, s);
            if !Dispatching(k) && OfEventbrite(k.loaded.kind)
            then worker !in m.workers && (s.Hear? ==> m.rows == w.rows)
            else
              var last := Run(m, more);
              var n := Next(last, Enforce(worker));
              && k.key in last.rows && n.workers == last.workers - {worker}
              && n.rows == last.rows[k.key := last.rows[k.key].(error := true, completed := true,
                   status := if RefusedBy(w, s, k.key) then Failed else Unknown)]
  {
    hide Sound, Run, Lifecycle, Gone, Received, Passes;
    HeldBy(w, worker);
    var m := Next(w, s);
    if worker in m.workers {
      FailingStays(m, more, worker);
    }
  }

  // ---------------------------------------------------------------- when success is final

  // A worker that may still undo success: a dispatch and a reconciliation of Iterable by failing, and
  // whoever has passed the comparison with an object that is not confirmed by writing it.
  predicate MayUndo(k: Worker, key: nat) {
    k.key == key && (Dispatching(k) || Iterable(k.loaded.kind) || (k.Checked? && k.row.status == Unknown))
  }

  predicate Undisturbed(w: World, key: nat) {
    forall i | i in w.workers :: !MayUndo(w.workers[i], key)
  }

  predicate SucceededAfter(w: World, key: nat, steps: seq<Step>) {
    key in Run(w, steps).rows && Run(w, steps).rows[key].status == Succeeded
  }

  // A succeeded operation stays succeeded, whatever follows, if and only if no worker that may undo
  // it is still at work.
  lemma SuccessFinalExactly(w: World, key: nat)
    requires Sound(w) && key in w.rows && w.rows[key].status == Succeeded
    ensures Undisturbed(w, key) <==> forall steps: seq<Step> :: SucceededAfter(w, key, steps)
  {
    hide Sound, Next, SucceededAfter, MayUndo;
    if Undisturbed(w, key) {
      forall steps: seq<Step> ensures SucceededAfter(w, key, steps) {
        StaysSucceeded(w, key, steps);
      }
    } else {
      var i :| i in w.workers && MayUndo(w.workers[i], key);
      var steps := Undone(w, key, i);
      assert !SucceededAfter(w, key, steps);
    }
  }

  lemma RunMore(w: World, steps: seq<Step>, s: Step)
    ensures Run(w, steps + [s]) == Next(Run(w, steps), s)
  {
    assert (steps + [s])[..|steps|] == steps;
  }

  lemma RunOne(w: World, s: Step)
    ensures Run(w, [s]) == Next(w, s)
  {
    RunMore(w, [], s);
    assert [] + [s] == [s];
  }

  // How the worker undoes it.
  lemma Undone(w: World, key: nat, i: nat) returns (steps: seq<Step>)
    requires Sound(w) && key in w.rows && i in w.workers && MayUndo(w.workers[i], key)
    ensures !SucceededAfter(w, key, steps)
  {
    hide Run, Sound;
    var k := w.workers[i];
    HeldBy(w, i);
    if k.Failing? {
      steps := [Enforce(i)];
      RunOne(w, Enforce(i));
    } else if k.Checked? && k.row.status == Unknown {
      steps := [Write(i, Taken)];
      RunOne(w, Write(i, Taken));
    } else {
      var s := if k.Checked? then Write(i, Refused) else Hear(i, Uncertainty);
      steps := [s] + [Enforce(i)];
      RunOne(w, s);
      RunMore(w, [s], Enforce(i));
    }
  }

  lemma StepSucceeded(w: World, key: nat, s: Step)
    requires Sound(w) && key in w.rows && w.rows[key].status == Succeeded && Undisturbed(w, key)
    ensures var m := Next(w, s); key in m.rows && m.rows[key].status == Succeeded && Undisturbed(m, key)
  {
    hide Sound, Lifecycle, SameReview, A.Posts;
    match s {
      case Hear(i, _) => if i in w.workers { HeldBy(w, i); }
      case Write(i, _) => if i in w.workers { HeldBy(w, i); }
      case Enforce(i) => if i in w.workers { HeldBy(w, i); }
      case _ =>
    }
  }

  lemma {:induction false} StaysSucceeded(w: World, key: nat, steps: seq<Step>)
    requires Sound(w) && key in w.rows && w.rows[key].status == Succeeded && Undisturbed(w, key)
    ensures SucceededAfter(w, key, steps) && Undisturbed(Run(w, steps), key)
  {
    hide Sound, Next, Undisturbed;
    if steps != [] {
      StaysSucceeded(w, key, steps[..|steps| - 1]);
      AlwaysSound(w, steps[..|steps| - 1]);
      StepSucceeded(Run(w, steps[..|steps| - 1]), key, steps[|steps| - 1]);
    }
  }

  // ---------------------------------------------------------------- runs in which success is undone

  // A row of key 0, submitted by 1 and approved by 2 with review 5 of revision 6.
  function Sample(kind: Kind, status: Status, provider: Option<nat>): Row {
    Row(kind, 1, 5, 6, Some(9), status, Some(2), true, status != Executing, status != Executing, provider, false)
  }

  function Claiming(kind: Kind): seq<Step> {
    [Submit(0, 1, kind, 5, 6, Some(9), true)] + [Approve(0, 2, 5, 6, true)] + [Claim(0, 0, 2, true)]
  }

  lemma ClaimingRuns(kind: Kind)
    ensures var row := Sample(kind, Executing, if kind == EventbriteUpdate then Some(9) else None);
            Run(Init(), Claiming(kind)) == World(map[0 := row], map[0 := Claimed(0, 2, row)], {Post(0, 2, 5)}, [])
  {
    var s1 := [Submit(0, 1, kind, 5, 6, Some(9), true)];
    var s2 := s1 + [Approve(0, 2, 5, 6, true)];
    RunOne(Init(), s1[0]);
    RunMore(Init(), s1, Approve(0, 2, 5, 6, true));
    RunMore(Init(), s2, Claim(0, 0, 2, true));
  }

  // An update that is reconciled, with success, while its dispatch is still at work.
  function Overlap(): seq<Step> {
    Claiming(EventbriteUpdate) + [Reconcile(1, 0, 2, true)] + [Hear(1, Receipt(true, Some(9), false, true))]
      + [Write(1, Taken)]
  }

  lemma OverlapRuns()
    ensures var executing := Sample(EventbriteUpdate, Executing, Some(9));
            && Run(Init(), Overlap()).rows == map[0 := Sample(EventbriteUpdate, Succeeded, Some(9))]
            && Run(Init(), Overlap()).workers == map[0 := Claimed(0, 2, executing)]
  {
    hide Run, Claiming;
    var s := Claiming(EventbriteUpdate);
    ClaimingRuns(EventbriteUpdate);
    RunMore(Init(), s, Reconcile(1, 0, 2, true));
    RunMore(Init(), s + [Reconcile(1, 0, 2, true)], Hear(1, Receipt(true, Some(9), false, true)));
    RunMore(Init(), s + [Reconcile(1, 0, 2, true)] + [Hear(1, Receipt(true, Some(9), false, true))], Write(1, Taken));
  }

  // Success can be undone: then the dispatch fails.
  lemma SuccessUndone()
    ensures SucceededAfter(Init(), 0, Overlap())
    ensures !SucceededAfter(Init(), 0, Overlap() + [Hear(0, Uncertainty)] + [Enforce(0)])
  {
    hide Run, Overlap;
    OverlapRuns();
    RunMore(Init(), Overlap(), Hear(0, Uncertainty));
    RunMore(Init(), Overlap() + [Hear(0, Uncertainty)], Enforce(0));
  }

  // A creation that has been posted.
  function Posting(): seq<Step> {
    Claiming(EventbriteCreate) + [Operate(0, [A.Post(A.OrganizationEvents(3), 4)])]
  }

  lemma PostingRuns()
    ensures var row := Sample(EventbriteCreate, Executing, None);
            Run(Init(), Posting())
              == World(map[0 := row], map[0 := Posted(0, 2, row)], {Post(0, 2, 5)}, [Post(0, 2, 5)])
  {
    hide Run, Claiming;
    var call := A.Post(A.OrganizationEvents(3), 4);
    ClaimingRuns(EventbriteCreate);
    A.PostsAppend([], call);
    assert [] + [call] == [call];
    RunMore(Init(), Claiming(EventbriteCreate), Operate(0, [call]));
  }

  // It is left unknown with its provider id.
  function LeftUnknown(): seq<Step> {
    Posting() + [Hear(0, Receipt(false, Some(9), false, true))] + [Write(0, Taken)]
  }

  lemma LeftUnknownRuns()
    ensures Run(Init(), LeftUnknown()) ==
            World(map[0 := Sample(EventbriteCreate, Unknown, Some(9))], map[], {Post(0, 2, 5)}, [Post(0, 2, 5)])
  {
    hide Run, Posting;
    PostingRuns();
    RunMore(Init(), Posting(), Hear(0, Receipt(false, Some(9), false, true)));
    RunMore(Init(), Posting() + [Hear(0, Receipt(false, Some(9), false, true))], Write(0, Taken));
  }

  // Two reconciliations of it: the second has compared its unconfirmed receipt with the row before the
  // first writes its confirmed one.
  function Compared(): seq<Step> {
    LeftUnknown() + [Reconcile(1, 0, 2, true)] + [Reconcile(2, 0, 2, true)]
      + [Hear(2, Receipt(false, Some(9), false, true))]
  }

  function Crossing(): seq<Step> {
    Compared() + [Hear(1, Receipt(true, Some(9), false, true))] + [Write(1, Taken)]
  }

  lemma ComparedRuns()
    ensures var unknown := Sample(EventbriteCreate, Unknown, Some(9));
            && Run(Init(), Compared()).rows == map[0 := unknown]
            && Run(Init(), Compared()).workers
               == map[1 := Reconciling(0, 2, unknown), 2 := Checked(0, 2, unknown, unknown, false)]
  {
    hide Run, LeftUnknown;
    var s1 := LeftUnknown() + [Reconcile(1, 0, 2, true)];
    LeftUnknownRuns();
    RunMore(Init(), LeftUnknown(), Reconcile(1, 0, 2, true));
    RunMore(Init(), s1, Reconcile(2, 0, 2, true));
    RunMore(Init(), s1 + [Reconcile(2, 0, 2, true)], Hear(2, Receipt(false, Some(9), false, true)));
  }

  lemma CrossingRuns()
    ensures var unknown := Sample(EventbriteCreate, Unknown, Some(9));
            && Run(Init(), Crossing()).rows == map[0 := Sample(EventbriteCreate, Succeeded, Some(9))]
            && Run(Init(), Crossing()).workers == map[2 := Checked(0, 2, unknown, unknown, false)]
  {
    hide Run, Compared;
    ComparedRuns();
    RunMore(Init(), Compared(), Hear(1, Receipt(true, Some(9), false, true)));
    RunMore(Init(), Compared() + [Hear(1, Receipt(true, Some(9), false, true))], Write(1, Taken));
  }

  // Even the success of a creation can be undone, by two reconciliations and nothing else.
  lemma CreationUndone()
    ensures SucceededAfter(Init(), 0, Crossing()) && !SucceededAfter(Init(), 0, Crossing() + [Write(2, Taken)])
  {
    hide Run, Crossing;
    CrossingRuns();
    RunMore(Init(), Crossing(), Write(2, Taken));
  }

  // A creation whose success was written, although its dispatch saw the write fail.
  function LostWrite(): seq<Step> {
    Posting() + [Hear(0, Receipt(true, Some(9), false, true))] + [Write(0, Lost)]
  }

  // The dispatch alone can undo the success that it has written itself.
  lemma DispatchUndone()
    ensures SucceededAfter(Init(), 0, LostWrite()) && !SucceededAfter(Init(), 0, LostWrite() + [Enforce(0)])
  {
    hide Run, Posting;
    PostingRuns();
    RunMore(Init(), Posting(), Hear(0, Receipt(true, Some(9), false, true)));
    RunMore(Init(), Posting() + [Hear(0, Receipt(true, Some(9), false, true))], Write(0, Lost));
    RunMore(Init(), LostWrite(), Enforce(0));
  }

  // ---------------------------------------------------------------- creations of Eventbrite

  // Where a provider id is known only from the dispatch, no reconciliation overlaps it, unless the
  // dispatch has already failed.
  predicate CreatesOk(w: World) {
    forall i | i in w.workers && w.workers[i].loaded.kind == EventbriteCreate && w.workers[i].key in w.rows ::
      CreateOk(w.workers[i], w.rows[w.workers[i].key])
  }

  predicate CreateOk(k: Worker, row: Row) {
    if Dispatching(k) then k.Failing? || row.provider.None?
    else row.provider.Some? && k.loaded.provider.Some? && (k.Checked? ==> k.row.provider.Some?)
  }

  lemma SameKind(w: World, i: nat)
    requires Sound(w) && i in w.workers
    ensures w.workers[i].key in w.rows && w.workers[i].loaded.kind == w.rows[w.workers[i].key].kind
  {
    HeldBy(w, i);
  }

  lemma OneDispatch(w: World, i: nat, j: nat)
    requires Sound(w) && i in w.workers && j in w.workers && w.workers[i].key == w.workers[j].key
    ensures Dispatching(w.workers[i]) && Dispatching(w.workers[j]) ==> i == j
  {
  }

  // A worker that goes on with the provider ids it knew.
  lemma ContinueCreates(w: World, worker: nat, k: Option<Worker>)
    requires Sound(w) && CreatesOk(w) && worker in w.workers
    requires k.Some? ==> !w.workers[worker].Failing?
                         && k.value.key == w.workers[worker].key && k.value.loaded == w.workers[worker].loaded
                         && Dispatching(k.value) == Dispatching(w.workers[worker])
                         && (k.value.Checked? && w.workers[worker].loaded.provider.Some? ==> k.value.row.provider.Some?)
    ensures CreatesOk(Continue(w, worker, k))
  {
    hide Sound;
  }

  // The writer of a row leaves, or has failed; the others of the same creation agree with what it wrote.
  lemma WroteCreates(w: World, worker: nat, row: Row, failed: Option<Worker>)
    requires Sound(w) && CreatesOk(w) && worker in w.workers
    requires var k := w.workers[worker];
             && k.key in w.rows && row.kind == w.rows[k.key].kind
             && (row.kind == EventbriteCreate && w.rows[k.key].provider.Some? ==> row.provider.Some?)
             && (failed.Some? ==> failed.value.Failing? && failed.value.key == k.key && failed.value.loaded == k.loaded
                                  && Dispatching(failed.value) == Dispatching(k))
    ensures CreatesOk(Continue(w.(rows := w.rows[w.workers[worker].key := row]), worker, failed))
  {
    hide Sound;
    var k := w.workers[worker];
    var m := Continue(w.(rows := w.rows[k.key := row]), worker, failed);
    SameKind(w, worker);
    forall i | i in m.workers && m.workers[i].loaded.kind == EventbriteCreate && m.workers[i].key in m.rows
      ensures CreateOk(m.workers[i], m.rows[m.workers[i].key])
    {
      if i in w.workers {
        SameKind(w, i);
        if m.workers[i].key == k.key {
          OneDispatch(w, i, worker);
          assert CreateOk(w.workers[worker], w.rows[k.key]) && CreateOk(w.workers[i], w.rows[k.key]);
        }
      }
    }
  }

  lemma WorkerCreates(w: World, worker: nat, s: Step)
    requires Sound(w) && CreatesOk(w) && worker in w.workers
    requires (s.Hear? || s.Write? || s.Enforce?) && s.worker == worker
    ensures CreatesOk(Next(w, s))
  {
    hide Sound, CreatesOk, Lifecycle, Passes, SameReview;
    SameKind(w, worker);
    HeldBy(w, worker);
    WriterKnows(w, worker);
    var k := w.workers[worker];
    match s {
      case Hear(_, o) =>
        if !k.Checked? && !k.Failing? {
          ContinueCreates(w, worker, AfterOutcome(w.rows[k.key], k, o));
        }
      case Write(_, outcome) =>
        if k.Checked? {
          ContinueCreates(w, worker, Fail(k, false));
          WroteCreates(w, worker, k.row, if outcome == Taken then None else Fail(k, false));
        }
      case Enforce(_) =>
        if k.Failing? {
          WroteCreates(w, worker, Overwrite(w.rows[k.key], k.status), None);
        }
    }
  }

  lemma WriterKnows(w: World, worker: nat)
    requires Sound(w) && CreatesOk(w) && worker in w.workers
    ensures var k := w.workers[worker];
            && k.key in w.rows
            && (k.Checked? ==> k.row.kind == w.rows[k.key].kind)
            && (k.Checked? && w.rows[k.key].kind == EventbriteCreate && w.rows[k.key].provider.Some? ==>
                  k.row.provider.Some?)
  {
    hide Lifecycle;
    SameKind(w, worker);
    HeldBy(w, worker);
    var k := w.workers[worker];
    assert w.rows[k.key].kind == EventbriteCreate ==> CreateOk(k, w.rows[k.key]);
  }

  lemma ApproveProvider(w: World, key: nat, user: nat, review: nat, revision: nat, valid: bool)
    ensures var m := ApproveRow(w, key, user, review, revision, valid);
            m.workers == w.workers && m.rows.Keys == w.rows.Keys
              && forall k | k in w.rows :: m.rows[k].provider == w.rows[k].provider
  {
  }

  lemma ClaimCreates(w: World, worker: nat, key: nat, user: nat, valid: bool)
    requires Sound(w) && CreatesOk(w)
    ensures CreatesOk(ClaimRow(w, worker, key, user, valid))
  {
    hide Sound;
    if key in w.rows && w.rows[key].status == Approved && w.rows[key].approver == Some(user) {
      ApprovedAs(w, key, user);
      Unclaimed(w, key);
    }
  }

  lemma NextCreates(w: World, s: Step)
    requires Sound(w) && CreatesOk(w)
    ensures CreatesOk(Next(w, s))
  {
    hide Sound, HearWorker, WriteWorker, EnforceWorker, A.Posts, A.Permitted, Sent;
    match s {
      case Hear(worker, _) => WorkerCreatesIf(w, worker, s);
      case Write(worker, _) => WorkerCreatesIf(w, worker, s);
      case Enforce(worker) => WorkerCreatesIf(w, worker, s);
      case Approve(key, user, review, revision, valid) => ApproveProvider(w, key, user, review, revision, valid);
      case Claim(worker, key, user, valid) => ClaimCreates(w, worker, key, user, valid);
      case Submit(key, user, kind, review, revision, event, valid) =>
        forall i | i in w.workers ensures w.workers[i].key in w.rows {
          HeldBy(w, i);
        }
      case _ =>
    }
  }

  lemma WorkerCreatesIf(w: World, worker: nat, s: Step)
    requires Sound(w) && CreatesOk(w)
    requires (s.Hear? || s.Write? || s.Enforce?) && s.worker == worker
    ensures CreatesOk(Next(w, s))
  {
    hide Sound, CreatesOk;
    if worker in w.workers {
      WorkerCreates(w, worker, s);
    }
  }

  lemma InitSound()
    ensures Sound(Init()) && CreatesOk(Init())
  {
  }

  lemma {:induction false} AlwaysCreates(steps: seq<Step>)
    ensures Sound(Run(Init(), steps)) && CreatesOk(Run(Init(), steps))
  {
    hide Sound, Next, CreatesOk;
    InitSound();
    AlwaysSound(Init(), steps);
    if steps != [] {
      AlwaysCreates(steps[..|steps| - 1]);
      NextCreates(Run(Init(), steps[..|steps| - 1]), steps[|steps| - 1]);
    }
  }

  // A worker that has yet to write the unconfirmed receipt it compared before the success, or to
  // overwrite because it saw its dispatch fail, if only in the write of the success itself.
  predicate Belated(k: Worker, key: nat) {
    k.key == key && (k.Failing? || (k.Checked? && k.row.status == Unknown))
  }

  // In every run, the succeeded creation of an Eventbrite draft stays succeeded, whatever follows, if
  // and only if no such worker is left.
  lemma CreateFinalExactly(steps: seq<Step>, key: nat)
    requires SucceededAfter(Init(), key, steps) && Run(Init(), steps).rows[key].kind == EventbriteCreate
    ensures var w := Run(Init(), steps);
            (forall i | i in w.workers :: !Belated(w.workers[i], key)) <==>
              forall more: seq<Step> :: SucceededAfter(w, key, more)
  {
    hide Next, Lifecycle, SameReview, SucceededAfter;
    Unhidden(Init(), key, steps);
    AlwaysCreates(steps);
    var w := Run(Init(), steps);
    SuccessFinalExactly(w, key);
    Succeeds(w, key);
    forall i | i in w.workers ensures MayUndo(w.workers[i], key) <==> Belated(w.workers[i], key) {
      SameKind(w, i);
      HeldBy(w, i);
      if w.workers[i].key == key {
        assert CreateOk(w.workers[i], w.rows[key]);
      }
    }
  }

  lemma Unhidden(w: World, key: nat, steps: seq<Step>)
    requires SucceededAfter(w, key, steps)
    ensures key in Run(w, steps).rows && Run(w, steps).rows[key].status == Succeeded
  {
  }

  lemma Succeeds(w: World, key: nat)
    requires Sound(w) && key in w.rows && w.rows[key].status == Succeeded
    ensures w.rows[key].provider.Some?
  {
  }
}
