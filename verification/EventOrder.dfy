// Events and the order in which a page of them is listed: the latest change first, then by id.
module EventOrder {
  import opened Wrappers

  datatype Event = Event(id: string, status: string, changed: int, created: Option<int>)

  predicate IdLess(a: string, b: string) {
    if b == "" then false
    else if a == "" then true
    else a[0] < b[0] || (a[0] == b[0] && IdLess(a[1..], b[1..]))
  }

  predicate Earlier(a: Event, b: Event) {
    a.changed > b.changed || (a.changed == b.changed && IdLess(a.id, b.id))
  }

  predicate Sorted(es: seq<Event>) {
    forall i, j | 0 <= i < j < |es| :: Earlier(es[i], es[j])
  }

  // The rows of a page by id, each under its own.
  predicate Keyed(rows: map<string, Event>) {
    forall id | id in rows :: rows[id].id == id
  }

  // The rows, in order, each once.
  ghost predicate Lists(es: seq<Event>, rows: map<string, Event>) {
    Sorted(es) && forall e :: e in es <==> e.id in rows && rows[e.id] == e
  }

  lemma {:induction false} IdTotal(a: string, b: string)
    requires a != b
    ensures IdLess(a, b) || IdLess(b, a)
  {
    if a != "" && b != "" && a[0] == b[0] {
      assert a == [a[0]] + a[1..] && b == [b[0]] + b[1..];
      IdTotal(a[1..], b[1..]);
    }
  }

  lemma {:induction false} IdTransitive(a: string, b: string, c: string)
    requires IdLess(a, b) && IdLess(b, c)
    ensures IdLess(a, c)
  {
    if a != "" && a[0] == b[0] == c[0] {
      IdTransitive(a[1..], b[1..], c[1..]);
    }
  }

  lemma EarlierOn(a: Event, b: Event, c: Event)
    requires Earlier(a, b) && Earlier(b, c)
    ensures Earlier(a, c)
  {
    if a.changed == b.changed == c.changed {
      IdTransitive(a.id, b.id, c.id);
    }
  }

  // Puts an event of another id in its place.
  method Insert(es: seq<Event>, e: Event) returns (more: seq<Event>)
    requires Sorted(es) && forall x | x in es :: x.id != e.id
    ensures Sorted(more) && forall x :: x in more <==> x in es || x == e
  {
    hide IdLess;
    var i := 0;
    while i < |es| && Earlier(es[i], e)
      invariant 0 <= i <= |es|
      invariant forall j | 0 <= j < i :: Earlier(es[j], e)
    {
      i := i + 1;
    }
    forall j | i <= j < |es| ensures Earlier(e, es[j]) {
      IdTotal(e.id, es[i].id);
      if i < j {
        EarlierOn(e, es[i], es[j]);
      }
    }
    more := es[..i] + [e] + es[i..];
    assert es == es[..i] + es[i..];
  }

  method SortRows(rows: map<string, Event>) returns (es: seq<Event>)
    requires Keyed(rows)
    ensures Lists(es, rows)
  {
    hide Earlier;
    var left := rows.Keys;
    es := [];
    while left != {}
      invariant left <= rows.Keys && Sorted(es)
      invariant forall e :: e in es <==> e.id in rows && e.id !in left && rows[e.id] == e
      decreases left
    {
      var id :| id in left;
      es := Insert(es, rows[id]);
      left := left - {id};
    }
  }
}
