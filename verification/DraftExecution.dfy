// Draft executions in place: a loaded object whose fields are assigned, then compared with the stored
// row and written over it, which others may have changed since.
module DraftExecution {
  import opened Wrappers
  import opened Drafts

  class Table {
    var rows: map<nat, Row>

    constructor ()
      ensures rows == map[]
    {
      rows := map[];
    }

    // The update that does not go through the object.
    method Update(key: nat, status: Status)
      requires key in rows
      modifies this
      ensures rows == old(rows)[key := Overwrite(old(rows)[key], status)]
    {
      rows := rows[key := rows[key].(status := status, error := true, completed := true)];
    }
  }

  class Execution {
    const table: Table
    const key: nat
    const reviewed: Row
    var status: Status
    var approver: Option<nat>
    var claimed: bool
    var completed: bool
    var receipt: bool
    var provider: Option<nat>
    var error: bool

    // The row this object stands for.
    function Loaded(): Row
      reads this
    {
      Row(reviewed.kind, reviewed.submitter, reviewed.review, reviewed.revision, reviewed.event,
          status, approver, claimed, completed, receipt, provider, error)
    }

    constructor (table: Table, key: nat)
      requires key in table.rows
      ensures this.table == table && this.key == key && Loaded() == table.rows[key]
    {
      var r := table.rows[key];
      this.table, this.key, reviewed := table, key, r;
      status, approver, claimed, completed := r.status, r.approver, r.claimed, r.completed;
      receipt, provider, error := r.receipt, r.provider, r.error;
    }

    // The first statement of a save: the comparison with the row as it is stored.
    method Compare() returns (passes: bool)
      requires key in table.rows
      ensures passes == Passes(table.rows[key], Loaded())
    {
      var current := table.rows[key];
      if !SameReview(current, Loaded()) || (current.approver.Some? && current.approver != approver) {
        return false;
      }
      if !Allowed(current.status, status) || (current.claimed && !claimed) || (current.completed && !completed) {
        return false;
      }
      return true;
    }

    // The second: the whole row, whatever is stored by then, if the constraints hold.
    method Write() returns (written: bool)
      requires key in table.rows
      modifies table
      ensures written == Lifecycle(Loaded())
      ensures table.rows == if written then old(table.rows)[key := Loaded()] else old(table.rows)
      ensures forall w: World, worker |
                && w.rows == old(table.rows) && worker in w.workers && w.workers[worker].Checked?
                && w.workers[worker].key == key && w.workers[worker].row == Loaded() ::
                table.rows == WriteWorker(w, worker, Taken).rows
    {
      if !Lifecycle(Loaded()) {
        return false;
      }
      table.rows := table.rows[key := Loaded()];
      return true;
    }

    // Both under the row's lock.
    method SaveLocked() returns (saved: bool)
      requires key in table.rows
      modifies table
      ensures var s := Save(old(table.rows)[key], Loaded());
              saved == s.Some? && table.rows == if s.Some? then old(table.rows)[key := s.value] else old(table.rows)
    {
      saved := Compare();
      if saved {
        saved := Write();
      }
    }

    // Approves under the row's lock: the object was just loaded.
    method Approve(user: nat, review: nat, revision: nat, valid: bool) returns (approved: bool)
      requires key in table.rows && Loaded() == table.rows[key]
      modifies this, table
      ensures forall w: World | w.rows == old(table.rows) ::
                table.rows == ApproveRow(w, key, user, review, revision, valid).rows
    {
      if !valid || status != Pending || review != reviewed.review || revision != reviewed.revision {
        return false;
      }
      approver := Some(user);
      status := Approved;
      approved := SaveLocked();
    }

    // Claims under the row's lock.
    method Claim(worker: nat, user: nat, valid: bool) returns (claim: bool)
      requires key in table.rows && Loaded() == table.rows[key]
      modifies this, table
      ensures forall w: World | w.rows == old(table.rows) && worker !in w.workers ::
                var m := ClaimRow(w, worker, key, user, valid);
                && table.rows == m.rows && claim == (worker in m.workers)
                && (claim ==> m.workers[worker] == Claimed(key, user, Loaded()))
    {
      if !valid || approver != Some(user) || status != Approved {
        return false;
      }
      status := Executing;
      claimed := true;
      if reviewed.kind == EventbriteUpdate {
        provider := reviewed.event;
      }
      claim := SaveLocked();
    }

    // What a worker hears of its provider call, up to the comparison: if that passes, it is going to
    // write this object, in a statement of its own.
    method Hear(o: Outcome) returns (passes: bool)
      requires key in table.rows
      modifies this
      ensures passes <==>
        o.Receipt? && Received(old(Loaded()), o).Some? && Passes(table.rows[key], Received(old(Loaded()), o).value)
      ensures passes ==> Loaded() == Received(old(Loaded()), o).value
      ensures forall k: Worker | !k.Checked? && !k.Failing? && k.key == key && k.loaded == old(Loaded()) ::
                AfterOutcome(table.rows[key], k, o)
                == if passes then Some(Checked(key, k.user, k.loaded, Loaded(), Dispatching(k)))
                   else Fail(k, o.Refusal?)
    {
      if !o.Receipt? {
        return false;
      }
      if || !o.proper
         || (reviewed.kind == EventbriteUpdate && o.provider.Some? && o.provider != reviewed.event)
         || (provider.Some? && o.provider.Some? && o.provider != provider)
         || (o.confirmed && o.provider.None?) {
        return false;
      }
      receipt := true;
      if o.provider.Some? {
        provider := o.provider;
      }
      status := if o.confirmed then Succeeded else Unknown;
      error := o.error;
      completed := true;
      passes := Compare();
    }

    // What a failed worker does in the end, without the object.
    method Enforce(failure: Status)
      requires key in table.rows
      modifies table
      ensures forall w: World, worker |
                && w.rows == old(table.rows) && worker in w.workers && w.workers[worker].Failing?
                && w.workers[worker].key == key && w.workers[worker].status == failure ::
                table.rows == EnforceWorker(w, worker).rows
    {
      table.Update(key, failure);
    }
  }
}
