// The tool broker: calls bound to retry identifiers, a replay table, and draft operations created
// at most once. Digests are free constructors: equal only if what they digest is equal.
module Broker {
  import opened Wrappers

  datatype Tool = GetEvent | GetPolicy | Clarify(text: nat) | Propose(text: nat) | GetStatus(operation: nat)
                | ValidateProposal(proposal: nat) | RequestEventbrite(proposal: nat) | RequestIterable(proposal: nat)

  datatype OperationKind = EventbriteDraft | IterableEmail | IterableReminder

  // Raw stands for any value a client makes up; it may also pass on a digest it has seen.
  datatype Digest = Raw(value: nat)
                  | OfCall(capability: nat, tool: Tool, correlation: nat)
                  | OfRequest(call: Digest)
                  | OfKey(capability: nat, key: Digest)
                  | OfArguments(tool: Tool, correlation: nat, requestId: Digest, key: Digest)
                  | OfAction(workflow: nat, revision: nat, content: nat, kind: OperationKind, text: nat)
                  | OfIntent(workflow: nat, revision: nat, actor: nat, kind: OperationKind, action: Digest)

  datatype Call = Call(capability: nat, tool: Tool, correlation: nat, requestId: Option<Digest>, key: Option<Digest>)

  // What a capability stands for: a workflow's revision and its content, for an actor.
  datatype Record = Record(workflow: nat, revision: nat, content: nat, actor: nat)

  datatype Submission = Submission(capability: nat, proposal: bool, text: nat)

  datatype Operation = Operation(workflow: nat, revision: nat, actor: nat, submission: nat, kind: OperationKind,
                                 action: Digest, key: Digest)

  datatype Answer = Facts(content: nat) | Policy | Submitted(submission: nat) | Valid(proposal: nat)
    | Operations(ids: seq<nat>)

  datatype Invocation = Invocation(capability: nat, requestId: Digest, keyDigest: Digest, arguments: Digest, tool: Tool,
                                   answer: Answer)

  // Submissions and operations are numbered by their position.
  datatype Tables = Tables(invocations: seq<Invocation>, submissions: seq<Submission>, operations: seq<Operation>)

  datatype Denial = BadArguments | ReplayConflict | ProposalUnavailable | OperationUnavailable

  type Capabilities = nat -> Record

  function Bind(c: Call): Call {
    if c.requestId.Some? || c.key.Some? then c
    else
      var key := OfCall(c.capability, c.tool, c.correlation);
      c.(requestId := Some(OfRequest(key)), key := Some(key))
  }

  // ---------------------------------------------------------------- effects

  function FindOperation(ops: seq<Operation>, key: Digest): (r: Option<nat>)
    ensures r.Some? ==> r.value < |ops| && ops[r.value].key == key
    ensures r.None? ==> forall i | 0 <= i < |ops| :: ops[i].key != key
  {
    if ops == [] then None
    else if ops[|ops| - 1].key == key then Some(|ops| - 1)
    else FindOperation(ops[..|ops| - 1], key)
  }

  function Wanted(r: Record, submission: nat, text: nat, kind: OperationKind): Operation {
    var action := OfAction(r.workflow, r.revision, r.content, kind, text);
    Operation(r.workflow, r.revision, r.actor, submission, kind, action,
              OfIntent(r.workflow, r.revision, r.actor, kind, action))
  }

  // The operation with this key, created if there is none.
  function GetOrCreate(ops: seq<Operation>, wanted: Operation): (seq<Operation>, nat) {
    var found := FindOperation(ops, wanted.key);
    if found.Some? then (ops, found.value) else (ops + [wanted], |ops|)
  }

  predicate Usable(t: Tables, caps: Capabilities, r: Record, proposal: nat) {
    && proposal < |t.submissions| && t.submissions[proposal].proposal
    && caps(t.submissions[proposal].capability) == r
  }

  predicate Visible(t: Tables, caps: Capabilities, r: Record, operation: nat) {
    && operation < |t.operations|
    && var o := t.operations[operation];
       && o.workflow == r.workflow && o.revision == r.revision && o.actor == r.actor
       && o.submission < |t.submissions| && caps(t.submissions[o.submission].capability).content == r.content
  }

  function Execute(t: Tables, caps: Capabilities, capability: nat, tool: Tool): Result<(Tables, Answer), Denial> {
    var r := caps(capability);
    match tool
    case GetEvent => Ok((t, Facts(r.content)))
    case GetPolicy => Ok((t, Policy))
    case Clarify(text) =>
      Ok((t.(submissions := t.submissions + [Submission(capability, false, text)]), Submitted(|t.submissions|)))
    case Propose(text) =>
      Ok((t.(submissions := t.submissions + [Submission(capability, true, text)]), Submitted(|t.submissions|)))
    case GetStatus(operation) =>
      if Visible(t, caps, r, operation) then Ok((t, Operations([operation]))) else Err(OperationUnavailable)
    case ValidateProposal(p) => if Usable(t, caps, r, p) then Ok((t, Valid(p))) else Err(ProposalUnavailable)
    case RequestEventbrite(p) =>
      if !Usable(t, caps, r, p) then Err(ProposalUnavailable)
      else
        var (ops, i) := GetOrCreate(t.operations, Wanted(r, p, t.submissions[p].text, EventbriteDraft));
        Ok((t.(operations := ops), Operations([i])))
    case RequestIterable(p) =>
      if !Usable(t, caps, r, p) then Err(ProposalUnavailable)
      else
        var (ops, i) := GetOrCreate(t.operations, Wanted(r, p, t.submissions[p].text, IterableEmail));
        var (more, j) := GetOrCreate(ops, Wanted(r, p, t.submissions[p].text, IterableReminder));
        Ok((t.(operations := more), Operations([i, j])))
  }

  // ---------------------------------------------------------------- the replay table

  // The first invocation with this request id or this key.
  function Match(invocations: seq<Invocation>, requestId: Digest, keyDigest: Digest, from: nat): (r: Option<nat>)
    requires from <= |invocations|
    ensures r.Some? ==> from <= r.value < |invocations|
                        && (invocations[r.value].requestId == requestId || invocations[r.value].keyDigest == keyDigest)
    ensures r.None? ==>
      forall i | from <= i < |invocations| ::
        invocations[i].requestId != requestId && invocations[i].keyDigest != keyDigest
    decreases |invocations| - from
  {
    if from == |invocations| then None
    else if invocations[from].requestId == requestId || invocations[from].keyDigest == keyDigest then Some(from)
    else Match(invocations, requestId, keyDigest, from + 1)
  }

  predicate Complete(c: Call) {
    c.requestId.Some? && c.key.Some?
  }

  function Entry(c: Call, answer: Answer): Invocation
    requires Complete(c)
  {
    Invocation(c.capability, c.requestId.value, OfKey(c.capability, c.key.value),
               OfArguments(c.tool, c.correlation, c.requestId.value, c.key.value), c.tool, answer)
  }

  // One transaction; a denial changes nothing.
  function Invoke(t: Tables, caps: Capabilities, call: Call): (Tables, Result<Answer, Denial>) {
    var c := Bind(call);
    if !Complete(c) then (t, Err(BadArguments))
    else
      var v := Entry(c, Policy);
      var existing := Match(t.invocations, v.requestId, v.keyDigest, 0);
      if existing.Some? then
        var e := t.invocations[existing.value];
        if e.capability != v.capability || e.tool != v.tool || e.arguments != v.arguments || e.keyDigest != v.keyDigest
        then (t, Err(ReplayConflict))
        else (t, Ok(e.answer))
      else
        var done := Execute(t, caps, c.capability, c.tool);
        if done.Err? then (t, Err(done.error))
        else (done.value.0.(invocations := t.invocations + [Entry(c, done.value.1)]), Ok(done.value.1))
  }

  function InvokeAll(t: Tables, caps: Capabilities, calls: seq<Call>): Tables {
    if calls == [] then t else Invoke(InvokeAll(t, caps, calls[..|calls| - 1]), caps, calls[|calls| - 1]).0
  }

  function Start(): Tables {
    Tables([], [], [])
  }

  // ---------------------------------------------------------------- the invariant

  // The answer recorded for this call, if it was ever accepted.
  predicate Recorded(t: Tables, c: Call, i: nat) {
    && Complete(c) && i < |t.invocations|
    && t.invocations[i] == Entry(c, t.invocations[i].answer)
  }

  predicate InvocationsOk(t: Tables) {
    forall i, j | 0 <= i < j < |t.invocations| ::
      t.invocations[i].requestId != t.invocations[j].requestId
        && t.invocations[i].keyDigest != t.invocations[j].keyDigest
  }

  // Each operation has the key of its own fields, and no two have the same.
  predicate OperationsOk(t: Tables) {
    && (forall i | 0 <= i < |t.operations| ::
          var o := t.operations[i];
          o.action.OfAction? && o.key == OfIntent(o.workflow, o.revision, o.actor, o.kind, o.action))
    && (forall i, j | 0 <= i < j < |t.operations| :: t.operations[i].key != t.operations[j].key)
  }

  predicate Sound(t: Tables) {
    InvocationsOk(t) && OperationsOk(t)
  }

  predicate Extends(t: Tables, u: Tables) {
    t.invocations <= u.invocations && t.submissions <= u.submissions && t.operations <= u.operations
  }

  lemma GetOrCreateOk(t: Tables, wanted: Operation)
    requires OperationsOk(t) && wanted.action.OfAction?
    requires wanted.key == OfIntent(wanted.workflow, wanted.revision, wanted.actor, wanted.kind, wanted.action)
    ensures var (ops, i) := GetOrCreate(t.operations, wanted);
            && OperationsOk(t.(operations := ops)) && t.operations <= ops && i < |ops| && ops[i].key == wanted.key
  {
  }

  lemma ExecuteOk(t: Tables, caps: Capabilities, capability: nat, tool: Tool)
    requires OperationsOk(t)
    ensures var r := Execute(t, caps, capability, tool);
            r.Ok? ==> OperationsOk(r.value.0) && Extends(t, r.value.0) && r.value.0.invocations == t.invocations
  {
    hide GetOrCreate, OperationsOk;
    var r := Execute(t, caps, capability, tool);
    if r.Ok? {
      match tool {
        case RequestEventbrite(p) =>
          GetOrCreateOk(t, Wanted(caps(capability), p, t.submissions[p].text, EventbriteDraft));
        case RequestIterable(p) =>
          var email := Wanted(caps(capability), p, t.submissions[p].text, IterableEmail);
          GetOrCreateOk(t, email);
          GetOrCreateOk(t.(operations := GetOrCreate(t.operations, email).0),
                        Wanted(caps(capability), p, t.submissions[p].text, IterableReminder));
        case _ => SameOperations(t, r.value.0);
      }
    }
  }

  lemma SameOperations(t: Tables, u: Tables)
    requires OperationsOk(t) && u.operations == t.operations
    ensures OperationsOk(u)
  {
  }

  lemma InvokeSound(t: Tables, caps: Capabilities, call: Call)
    requires Sound(t)
    ensures Sound(Invoke(t, caps, call).0) && Extends(t, Invoke(t, caps, call).0)
  {
    hide Execute, OperationsOk;
    var c := Bind(call);
    if Complete(c) {
      ExecuteOk(t, caps, c.capability, c.tool);
      var (u, r) := Invoke(t, caps, call);
      if u != t {
        SameOperations(Execute(t, caps, c.capability, c.tool).value.0, u);
      }
    }
  }

  lemma {:induction false} AlwaysSound(t: Tables, caps: Capabilities, calls: seq<Call>)
    requires Sound(t)
    ensures Sound(InvokeAll(t, caps, calls)) && Extends(t, InvokeAll(t, caps, calls))
  {
    hide Sound, Invoke;
    if calls != [] {
      AlwaysSound(t, caps, calls[..|calls| - 1]);
      InvokeSound(InvokeAll(t, caps, calls[..|calls| - 1]), caps, calls[|calls| - 1]);
    }
  }

  // ---------------------------------------------------------------- replay

  // A call is answered from the table, changing nothing, if it is one that was accepted before.
  lemma Replayed(t: Tables, caps: Capabilities, call: Call, i: nat)
    requires Sound(t) && Recorded(t, Bind(call), i)
    ensures Invoke(t, caps, call) == (t, Ok(t.invocations[i].answer))
  {
    hide OperationsOk, Execute;
    var c := Bind(call);
    var m := Match(t.invocations, c.requestId.value, OfKey(c.capability, c.key.value), 0);
    assert m == Some(i);
  }

  // Every row of the table is that of a call.
  predicate OfSomeCall(v: Invocation) {
    && v.keyDigest.OfKey? && v.arguments.OfArguments?
    && v == Entry(Call(v.capability, v.tool, v.arguments.correlation, Some(v.requestId), Some(v.keyDigest.key)),
                  v.answer)
  }

  predicate Genuine(t: Tables) {
    forall v | v in t.invocations :: OfSomeCall(v)
  }

  lemma InvokeGenuine(t: Tables, caps: Capabilities, call: Call)
    requires Genuine(t)
    ensures Genuine(Invoke(t, caps, call).0)
  {
    hide Execute, Match;
    InvocationsKept(t, caps, Bind(call).capability, Bind(call).tool);
  }

  lemma {:induction false} AlwaysGenuine(caps: Capabilities, calls: seq<Call>)
    ensures Sound(InvokeAll(Start(), caps, calls)) && Genuine(InvokeAll(Start(), caps, calls))
  {
    hide Invoke;
    if calls != [] {
      var before, call := InvokeAll(Start(), caps, calls[..|calls| - 1]), calls[|calls| - 1];
      AlwaysGenuine(caps, calls[..|calls| - 1]);
      InvokeGenuine(before, caps, call);
      InvokeSound(before, caps, call);
    }
  }

  // A genuine row with the digests of a call is the row of that call.
  lemma RowOfCall(t: Tables, c: Call, i: nat)
    requires Genuine(t) && Complete(c) && i < |t.invocations|
    ensures var v := t.invocations[i];
            Recorded(t, c, i) <==>
              v.capability == c.capability && v.tool == c.tool && v.keyDigest == OfKey(c.capability, c.key.value)
                                   && v.arguments == OfArguments(c.tool, c.correlation, c.requestId.value, c.key.value)
  {
    assert OfSomeCall(t.invocations[i]);
  }

  // A call that shares its request id, or its key with the same capability, with a call accepted
  // before is either that very call, tool and arguments and all, or it is rejected.
  lemma SharedIdentityDecides(caps: Capabilities, calls: seq<Call>, call: Call, i: nat)
    requires Complete(Bind(call)) && i < |InvokeAll(Start(), caps, calls).invocations|
    requires var c, v := Bind(call), InvokeAll(Start(), caps, calls).invocations[i];
             v.requestId == c.requestId.value || v.keyDigest == OfKey(c.capability, c.key.value)
    ensures var t := InvokeAll(Start(), caps, calls);
            var (u, r) := Invoke(t, caps, call);
            && u == t && (r.Ok? <==> exists j :: Recorded(t, Bind(call), j)) && (r.Err? ==> r.error == ReplayConflict)
  {
    hide Sound, Genuine, Execute, Recorded;
    AlwaysGenuine(caps, calls);
    var t, c := InvokeAll(Start(), caps, calls), Bind(call);
    var j := Match(t.invocations, c.requestId.value, OfKey(c.capability, c.key.value), 0).value;
    RowOfCall(t, c, j);
    if k :| Recorded(t, c, k) {
      Replayed(t, caps, call, k);
    }
  }

  // Over any calls: once a call has been accepted, repeating it gives the same answer and has no
  // further effect, however many other calls come in between.
  lemma Idempotent(caps: Capabilities, calls: seq<Call>, call: Call, more: seq<Call>)
    ensures var t := InvokeAll(Start(), caps, calls);
            var (u, r) := Invoke(t, caps, call);
            var later := InvokeAll(u, caps, more);
            r.Ok? ==> Invoke(later, caps, call) == (later, r)
  {
    hide Execute, OperationsOk;
    AlwaysGenuine(caps, calls);
    var t := InvokeAll(Start(), caps, calls);
    var (u, r) := Invoke(t, caps, call);
    InvokeSound(t, caps, call);
    AlwaysSound(u, caps, more);
    if r.Ok? {
      var i := AcceptedAt(t, caps, call);
      Replayed(InvokeAll(u, caps, more), caps, call, i);
    }
  }

  // Where an accepted call is recorded.
  lemma AcceptedAt(t: Tables, caps: Capabilities, call: Call) returns (i: nat)
    requires Sound(t) && Genuine(t) && Invoke(t, caps, call).1.Ok?
    ensures Recorded(Invoke(t, caps, call).0, Bind(call), i)
    ensures Invoke(t, caps, call).1 == Ok(Invoke(t, caps, call).0.invocations[i].answer)
  {
    hide Execute, OperationsOk, InvocationsOk, Genuine;
    InvocationsKept(t, caps, Bind(call).capability, Bind(call).tool);
    var c := Bind(call);
    var m := Match(t.invocations, c.requestId.value, OfKey(c.capability, c.key.value), 0);
    if m.Some? {
      i := m.value;
      RowOfCall(t, c, i);
    } else {
      i := |t.invocations|;
    }
  }

  // The effects of all calls are those of the accepted ones: there is an invocation for each.
  lemma NewEffectNewInvocation(t: Tables, caps: Capabilities, call: Call)
    requires Sound(t)
    ensures var u := Invoke(t, caps, call).0;
            && (u == t || (|u.invocations| == |t.invocations| + 1 && Recorded(u, Bind(call), |t.invocations|)))
            && |u.submissions| <= |t.submissions| + 1 && |u.operations| <= |t.operations| + 2
  {
    hide Sound, Match;
  }

  // Calls without retry identifiers are bound to the same ones exactly if they are the same call.
  lemma BoundExactly(a: Call, b: Call)
    requires !a.requestId.Some? && !a.key.Some? && !b.requestId.Some? && !b.key.Some?
    ensures Complete(Bind(a))
    ensures (Bind(a).key == Bind(b).key <==> a == b) && (Bind(a).requestId == Bind(b).requestId <==> a == b)
  {
  }

  // A call with one retry identifier and not the other is refused; one with both is recorded under exactly
  // these, and one with neither under identifiers that only this very call has.
  lemma IdentifiersKept(caps: Capabilities, calls: seq<Call>, call: Call)
    ensures var t := InvokeAll(Start(), caps, calls);
            var (u, r) := Invoke(t, caps, call);
            && (call.requestId.Some? != call.key.Some? ==> u == t && r == Err(BadArguments))
            && (call.requestId.Some? && call.key.Some? && r.Ok? ==> exists i :: Recorded(u, call, i))
            && (call.requestId.None? && call.key.None? && r.Ok? ==>
                  exists i, c: Call :: Recorded(u, c, i) && c.tool == call.tool && c.correlation == call.correlation
                                       && c.requestId == Some(OfRequest(c.key.value)) && c.capability == call.capability
                                       && c.key == Some(OfCall(call.capability, call.tool, call.correlation)))
  {
    hide Sound, Genuine, Execute, Match, Recorded;
    AlwaysGenuine(caps, calls);
    var t := InvokeAll(Start(), caps, calls);
    if Invoke(t, caps, call).1.Ok? {
      var i := AcceptedAt(t, caps, call);
      CompleteRecorded(Invoke(t, caps, call).0, Bind(call), i);
    }
  }

  lemma CompleteRecorded(t: Tables, c: Call, i: nat)
    requires Recorded(t, c, i)
    ensures Complete(c)
  {
  }

  // At most one draft operation exists for a workflow, revision, actor, kind and action.
  lemma OneOperation(caps: Capabilities, calls: seq<Call>, i: nat, j: nat)
    requires var t := InvokeAll(Start(), caps, calls); i < |t.operations| && j < |t.operations|
    requires var t := InvokeAll(Start(), caps, calls);
             && t.operations[i].workflow == t.operations[j].workflow
             && t.operations[i].revision == t.operations[j].revision
             && t.operations[i].actor == t.operations[j].actor && t.operations[i].kind == t.operations[j].kind
             && t.operations[i].action == t.operations[j].action
    ensures i == j
  {
    hide Invoke;
    AlwaysSound(Start(), caps, calls);
    var t := InvokeAll(Start(), caps, calls);
    assert t.operations[i].key == t.operations[j].key;
  }

  // ---------------------------------------------------------------- whose operations, and what is answered

  // A proposal made under a capability of the record.
  predicate ProposalOf(t: Tables, caps: Capabilities, r: Record, i: nat) {
    i < |t.submissions| && t.submissions[i].proposal && caps(t.submissions[i].capability) == r
  }

  // An operation of the record's workflow, revision and actor, from a proposal under it with this text.
  predicate OperationOf(t: Tables, caps: Capabilities, r: Record, i: nat, kind: OperationKind, text: nat) {
    && i < |t.operations|
    && var o := t.operations[i];
       && o.workflow == r.workflow && o.revision == r.revision && o.actor == r.actor && o.kind == kind
       && o.action == OfAction(r.workflow, r.revision, r.content, kind, text)
       && ProposalOf(t, caps, r, o.submission) && t.submissions[o.submission].text == text
  }

  // The record whose operation this is.
  ghost predicate Owned(t: Tables, caps: Capabilities, i: nat) {
    exists r, kind, text :: OperationOf(t, caps, r, i, kind, text)
  }

  ghost predicate AllOwned(t: Tables, caps: Capabilities) {
    forall i | 0 <= i < |t.operations| :: Owned(t, caps, i)
  }

  // What a tool may answer to a capability.
  predicate Fits(t: Tables, caps: Capabilities, capability: nat, tool: Tool, answer: Answer) {
    var r := caps(capability);
    match tool
    case GetEvent => answer == Facts(r.content)
    case GetPolicy => answer == Policy
    case Clarify(text) =>
      && answer.Submitted? && answer.submission < |t.submissions|
      && t.submissions[answer.submission] == Submission(capability, false, text)
    case Propose(text) =>
      && answer.Submitted? && answer.submission < |t.submissions|
      && t.submissions[answer.submission] == Submission(capability, true, text)
    case GetStatus(o) =>
      && answer == Operations([o]) && o < |t.operations| && t.operations[o].action.OfAction?
      && OperationOf(t, caps, r, o, t.operations[o].kind, t.operations[o].action.text)
    case ValidateProposal(p) => answer == Valid(p) && ProposalOf(t, caps, r, p)
    case RequestEventbrite(p) =>
      && answer.Operations? && |answer.ids| == 1 && ProposalOf(t, caps, r, p)
      && OperationOf(t, caps, r, answer.ids[0], EventbriteDraft, t.submissions[p].text)
    case RequestIterable(p) =>
      && answer.Operations? && |answer.ids| == 2 && ProposalOf(t, caps, r, p)
      && OperationOf(t, caps, r, answer.ids[0], IterableEmail, t.submissions[p].text)
      && OperationOf(t, caps, r, answer.ids[1], IterableReminder, t.submissions[p].text)
  }

  ghost predicate AllFit(t: Tables, caps: Capabilities) {
    forall v | v in t.invocations :: Fits(t, caps, v.capability, v.tool, v.answer)
  }

  lemma FitsOn(t: Tables, u: Tables, caps: Capabilities, capability: nat, tool: Tool, answer: Answer)
    requires Extends(t, u) && Fits(t, caps, capability, tool, answer)
    ensures Fits(u, caps, capability, tool, answer)
  {
  }

  lemma OwnedOn(t: Tables, u: Tables, caps: Capabilities, i: nat)
    requires Extends(t, u) && i < |t.operations| && Owned(t, caps, i)
    ensures Owned(u, caps, i)
  {
    var r, kind, text :| OperationOf(t, caps, r, i, kind, text);
    assert OperationOf(u, caps, r, i, kind, text);
  }

  // Asking for an operation from a proposal of the record gives one of the record.
  lemma RequestOwned(t: Tables, caps: Capabilities, r: Record, p: nat, kind: OperationKind)
    requires OperationsOk(t) && AllOwned(t, caps) && ProposalOf(t, caps, r, p)
    ensures var (ops, i) := GetOrCreate(t.operations, Wanted(r, p, t.submissions[p].text, kind));
            var u := t.(operations := ops);
            && OperationsOk(u) && AllOwned(u, caps) && Extends(t, u)
            && OperationOf(u, caps, r, i, kind, t.submissions[p].text)
  {
    hide FindOperation;
    var text := t.submissions[p].text;
    var wanted := Wanted(r, p, text, kind);
    var (ops, i) := GetOrCreate(t.operations, wanted);
    var u := t.(operations := ops);
    GetOrCreateOk(t, wanted);
    if i < |t.operations| {
      assert t.operations[i] == ops[i] && Owned(t, caps, i);
      var r', kind', text' :| OperationOf(t, caps, r', i, kind', text');
    }
    assert OperationOf(u, caps, r, i, kind, text);
    forall k | 0 <= k < |u.operations| ensures Owned(u, caps, k) {
      if k < |t.operations| {
        OwnedOn(t, u, caps, k);
      }
    }
  }

  lemma SameOwned(t: Tables, u: Tables, caps: Capabilities)
    requires AllOwned(t, caps) && Extends(t, u) && u.operations == t.operations
    ensures AllOwned(u, caps)
  {
    forall k | 0 <= k < |u.operations| ensures Owned(u, caps, k) {
      OwnedOn(t, u, caps, k);
    }
  }

  lemma ExecuteOwned(t: Tables, caps: Capabilities, capability: nat, tool: Tool)
    requires OperationsOk(t) && AllOwned(t, caps)
    ensures var r := Execute(t, caps, capability, tool);
            r.Ok? ==> AllOwned(r.value.0, caps) && Fits(r.value.0, caps, capability, tool, r.value.1)
  {
    hide GetOrCreate, OperationsOk, Owned, AllOwned;
    var done := Execute(t, caps, capability, tool);
    if done.Ok? {
      var r := caps(capability);
      match tool {
        case RequestEventbrite(p) => RequestOwned(t, caps, r, p, EventbriteDraft);
        case RequestIterable(p) =>
          RequestOwned(t, caps, r, p, IterableEmail);
          var u := t.(operations := GetOrCreate(t.operations, Wanted(r, p, t.submissions[p].text, IterableEmail)).0);
          RequestOwned(u, caps, r, p, IterableReminder);
        case GetStatus(o) =>
          SameOwned(t, done.value.0, caps);
          StatusOwned(t, caps, r, o);
        case _ => SameOwned(t, done.value.0, caps);
      }
    }
  }

  // An operation that can be seen is one of the record itself.
  lemma StatusOwned(t: Tables, caps: Capabilities, r: Record, o: nat)
    requires AllOwned(t, caps) && Visible(t, caps, r, o)
    ensures t.operations[o].action.OfAction?
    ensures OperationOf(t, caps, r, o, t.operations[o].kind, t.operations[o].action.text)
  {
    assert Owned(t, caps, o);
    var r', kind, text :| OperationOf(t, caps, r', o, kind, text);
  }

  lemma InvokeOwned(t: Tables, caps: Capabilities, call: Call)
    requires Sound(t) && AllOwned(t, caps) && AllFit(t, caps)
    ensures AllOwned(Invoke(t, caps, call).0, caps) && AllFit(Invoke(t, caps, call).0, caps)
  {
    hide Execute, Owned, Fits, Extends, Match;
    var c, u := Bind(call), Invoke(t, caps, call).0;
    InvokeSound(t, caps, call);
    if u != t {
      ExecuteOwned(t, caps, c.capability, c.tool);
      var done := Execute(t, caps, c.capability, c.tool).value;
      InvocationsKept(t, caps, c.capability, c.tool);
      Recording(done.0, u);
      SameOwned(done.0, u, caps);
      FitsOn(done.0, u, caps, c.capability, c.tool, done.1);
      forall v | v in u.invocations ensures Fits(u, caps, v.capability, v.tool, v.answer) {
        if v in t.invocations {
          FitsOn(t, u, caps, v.capability, v.tool, v.answer);
        }
      }
    }
  }

  lemma Recording(t: Tables, u: Tables)
    requires t.invocations <= u.invocations && u.submissions == t.submissions && u.operations == t.operations
    ensures Extends(t, u)
  {
  }

  lemma {:induction false} AlwaysOwned(caps: Capabilities, calls: seq<Call>)
    ensures var t := InvokeAll(Start(), caps, calls); Sound(t) && AllOwned(t, caps) && AllFit(t, caps)
  {
    hide Sound, Invoke, AllOwned, AllFit;
    if calls == [] {
      NothingOwned(caps);
    } else {
      AlwaysOwned(caps, calls[..|calls| - 1]);
      InvokeSound(InvokeAll(Start(), caps, calls[..|calls| - 1]), caps, calls[|calls| - 1]);
      InvokeOwned(InvokeAll(Start(), caps, calls[..|calls| - 1]), caps, calls[|calls| - 1]);
    }
  }

  lemma NothingOwned(caps: Capabilities)
    ensures Sound(Start()) && AllOwned(Start(), caps) && AllFit(Start(), caps)
  {
  }

  // Over any calls: every operation is of the workflow, revision and actor of the capability under
  // which its proposal was made, for exactly the proposal's text and the reviewed content.
  lemma OperationsOwned(caps: Capabilities, calls: seq<Call>, i: nat)
    requires i < |InvokeAll(Start(), caps, calls).operations|
    ensures var t := InvokeAll(Start(), caps, calls);
            var o := t.operations[i];
            && o.submission < |t.submissions| && t.submissions[o.submission].proposal
            && var s, r := t.submissions[o.submission], caps(t.submissions[o.submission].capability);
               && o.workflow == r.workflow && o.revision == r.revision && o.actor == r.actor
               && o.action == OfAction(r.workflow, r.revision, r.content, o.kind, s.text)
  {
    hide Invoke, InvokeAll, Sound;
    AlwaysOwned(caps, calls);
    assert Owned(InvokeAll(Start(), caps, calls), caps, i);
  }

  // Over any calls: whatever is answered, at once or replayed later, fits the tool and the capability
  // of the caller: its own facts, submissions, proposals, and operations of its own record.
  lemma AnswersFit(caps: Capabilities, calls: seq<Call>, call: Call)
    ensures var (u, r) := Invoke(InvokeAll(Start(), caps, calls), caps, call);
            r.Ok? ==> Fits(u, caps, call.capability, call.tool, r.value)
  {
    hide Invoke, InvokeAll, Sound, Fits, Genuine;
    AlwaysGenuine(caps, calls);
    AlwaysOwned(caps, calls);
    var t := InvokeAll(Start(), caps, calls);
    var (u, r) := Invoke(t, caps, call);
    if r.Ok? {
      InvokeOwned(t, caps, call);
      var i := AcceptedAt(t, caps, call);
      assert u.invocations[i] in u.invocations;
    }
  }

  // A new call is denied exactly if it names a proposal, or an operation, that is not of the record.
  lemma DeniedExactly(caps: Capabilities, calls: seq<Call>, call: Call)
    requires Complete(Bind(call))
    requires var c := Bind(call);
             forall v | v in InvokeAll(Start(), caps, calls).invocations ::
               v.requestId != c.requestId.value && v.keyDigest != OfKey(c.capability, c.key.value)
    ensures var t, r := InvokeAll(Start(), caps, calls), caps(call.capability);
            var answer := Invoke(t, caps, call).1;
            match call.tool
            case ValidateProposal(p) => answer == Err(ProposalUnavailable) <==> !ProposalOf(t, caps, r, p)
            case RequestEventbrite(p) => answer == Err(ProposalUnavailable) <==> !ProposalOf(t, caps, r, p)
            case RequestIterable(p) => answer == Err(ProposalUnavailable) <==> !ProposalOf(t, caps, r, p)
            case GetStatus(o) =>
              answer == Err(OperationUnavailable)
              <==> !exists kind, text :: OperationOf(t, caps, r, o, kind, text)
            case _ => answer.Ok?
  {
    hide InvokeAll, Sound, GetOrCreate, FindOperation;
    AlwaysOwned(caps, calls);
    var t, r := InvokeAll(Start(), caps, calls), caps(call.capability);
    if call.tool.GetStatus? && Visible(t, caps, r, call.tool.operation) {
      StatusOwned(t, caps, r, call.tool.operation);
    }
  }

  // ---------------------------------------------------------------- in place

  class BrokerTables {
    var invocations: seq<Invocation>
    var submissions: seq<Submission>
    var operations: seq<Operation>

    function State(): Tables
      reads this
    {
      Tables(invocations, submissions, operations)
    }

    constructor ()
      ensures State() == Start()
    {
      invocations, submissions, operations := [], [], [];
    }

    method CreateOperation(wanted: Operation) returns (id: nat)
      modifies `operations
      ensures (operations, id) == GetOrCreate(old(operations), wanted)
    {
      var found := FindOperation(operations, wanted.key);
      if found.Some? {
        return found.value;
      }
      id := |operations|;
      operations := operations + [wanted];
    }

    method ExecuteTool(caps: Capabilities, capability: nat, tool: Tool) returns (r: Result<Answer, Denial>)
      modifies `submissions, `operations
      ensures var done := Execute(old(State()), caps, capability, tool);
              if done.Ok? then r == Ok(done.value.1) && State() == done.value.0
              else r == Err(done.error) && State() == old(State())
    {
      hide FindOperation;
      var record := caps(capability);
      match tool {
        case GetEvent => return Ok(Facts(record.content));
        case GetPolicy => return Ok(Policy);
        case Clarify(text) =>
          submissions := submissions + [Submission(capability, false, text)];
          return Ok(Submitted(|submissions| - 1));
        case Propose(text) =>
          submissions := submissions + [Submission(capability, true, text)];
          return Ok(Submitted(|submissions| - 1));
        case GetStatus(operation) =>
          return if Visible(State(), caps, record, operation) then Ok(Operations([operation]))
                 else Err(OperationUnavailable);
        case ValidateProposal(p) =>
          return if Usable(State(), caps, record, p) then Ok(Valid(p)) else Err(ProposalUnavailable);
        case RequestEventbrite(p) =>
          if !Usable(State(), caps, record, p) {
            return Err(ProposalUnavailable);
          }
          var i := CreateOperation(Wanted(record, p, submissions[p].text, EventbriteDraft));
          return Ok(Operations([i]));
        case RequestIterable(p) =>
          if !Usable(State(), caps, record, p) {
            return Err(ProposalUnavailable);
          }
          var i := CreateOperation(Wanted(record, p, submissions[p].text, IterableEmail));
          var j := CreateOperation(Wanted(record, p, submissions[p].text, IterableReminder));
          return Ok(Operations([i, j]));
      }
    }

    method InvokeTool(caps: Capabilities, call: Call) returns (r: Result<Answer, Denial>)
      modifies this
      ensures (State(), r) == Invoke(old(State()), caps, call)
    {
      hide Execute;
      var c := Bind(call);
      if c.requestId.None? || c.key.None? {
        return Err(BadArguments);
      }
      var arguments := OfArguments(c.tool, c.correlation, c.requestId.value, c.key.value);
      var keyDigest := OfKey(c.capability, c.key.value);
      var existing := Match(invocations, c.requestId.value, keyDigest, 0);
      if existing.Some? {
        var e := invocations[existing.value];
        if e.capability != c.capability || e.tool != c.tool || e.arguments != arguments || e.keyDigest != keyDigest {
          return Err(ReplayConflict);
        }
        return Ok(e.answer);
      }
      ghost var before := State();
      InvocationsKept(before, caps, c.capability, c.tool);
      r := ExecuteTool(caps, c.capability, c.tool);
      if r.Ok? {
        invocations := invocations
                       + [Invocation(c.capability, c.requestId.value, keyDigest, arguments, c.tool, r.value)];
      }
    }
  }

  lemma InvocationsKept(t: Tables, caps: Capabilities, capability: nat, tool: Tool)
    ensures var r := Execute(t, caps, capability, tool); r.Ok? ==> r.value.0.invocations == t.invocations
  {
  }
}
