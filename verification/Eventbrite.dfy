// Browsing of Eventbrite events page by page: three nested levels (organization pages, their
// organizations, event pages of each), at most four requests a call, resumed by a cursor.
module Eventbrite {
  import opened Wrappers
  import opened EventOrder

  // None stands for a row that is not a well-formed organization or event.
  datatype Reply<T> = Reply(rows: seq<Option<T>>, more: bool) | BadReply

  datatype Provider = Provider(organizations: nat -> Reply<string>, events: (string, nat) -> Reply<Event>)

  datatype Query = Query(pageSize: nat, statuses: set<string>,
                         changedSince: Option<int>, changedUntil: Option<int>,
                         createdSince: Option<int>, createdUntil: Option<int>)

  datatype Position = Position(orgPage: nat, orgIndex: nat, eventPage: nat)

  datatype ReadError = InvalidResponse | Timeout

  datatype Page = Page(events: seq<Event>, next: Option<Position>)

  const MAX_REQUESTS: nat := 4
  const MAX_PAGE_SIZE: nat := 20
  const ORGANIZATION_LIMIT: nat := 50
  const MAX_POSITION: nat := 1_000_000
  const START := Position(1, 0, 1)
  const STATUSES: set<string> := {"draft", "live", "started", "ended", "completed", "canceled"}

  predicate IsId(id: string) {
    1 <= |id| <= 32 && forall i | 0 <= i < |id| :: '0' <= id[i] <= '9'
  }

  // One to 32 decimal digits.
  ghost predicate Numeral(id: string) {
    1 <= |id| <= 32 && forall c | c in id :: c in "0123456789"
  }

  lemma IdExactly(id: string)
    ensures IsId(id) <==> Numeral(id)
  {
    if Numeral(id) {
      forall i | 0 <= i < |id| ensures '0' <= id[i] <= '9' {
        assert id[i] in id;
      }
    }
  }

  predicate Within(time: Option<int>, since: Option<int>, until: Option<int>) {
    && (since.Some? ==> time.Some? && since.value <= time.value)
    && (until.Some? ==> time.Some? && time.value <= until.value)
  }

  predicate Passes(q: Query, e: Event) {
    Within(Some(e.changed), q.changedSince, q.changedUntil) && Within(e.created, q.createdSince, q.createdUntil)
  }

  function Filter(q: Query, es: seq<Event>): seq<Event> {
    if es == [] then []
    else Filter(q, es[..|es| - 1]) + (if Passes(q, es[|es| - 1]) then [es[|es| - 1]] else [])
  }

  // Events by id; a later one replaces an earlier one.
  function Index(es: seq<Event>): map<string, Event> {
    if es == [] then map[] else Index(es[..|es| - 1])[es[|es| - 1].id := es[|es| - 1]]
  }

  // ---------------------------------------------------------------- what a provider holds

  // Organization ids page by page, and the event pages of each organization.
  datatype Catalog = Catalog(pages: seq<seq<string>>, events: map<string, seq<seq<Event>>>)

  function Rows<T>(xs: seq<T>): (r: seq<Option<T>>)
    ensures |r| == |xs|
    ensures forall i | 0 <= i < |r| :: r[i] == Some(xs[i])
  {
    seq(|xs|, i requires 0 <= i < |xs| => Some(xs[i]))
  }

  predicate DistinctIds(es: seq<Event>) {
    forall i, j | 0 <= i < j < |es| :: es[i].id != es[j].id
  }

  predicate EventPageOk(q: Query, es: seq<Event>) {
    |es| <= q.pageSize && DistinctIds(es) && forall i | 0 <= i < |es| :: es[i].status in q.statuses
  }

  ghost predicate ServesEvents(provider: Provider, q: Query, org: string, pages: seq<seq<Event>>) {
    && pages != []
    && forall e {:trigger pages[e - 1]} | 1 <= e <= |pages| ::
         && provider.events(org, e) == Reply(Rows(pages[e - 1]), e < |pages|)
         && EventPageOk(q, pages[e - 1])
         && (e < |pages| ==> pages[e - 1] != [])
  }

  ghost predicate ServesPage(provider: Provider, q: Query, c: Catalog, p: nat)
    requires 1 <= p <= |c.pages|
  {
    var orgs := c.pages[p - 1];
    && provider.organizations(p) == Reply(Rows(orgs), p < |c.pages|)
    && |orgs| <= ORGANIZATION_LIMIT
    && (p < |c.pages| ==> orgs != [])
    && forall i | 0 <= i < |orgs| ::
         Numeral(orgs[i]) && orgs[i] in c.events && ServesEvents(provider, q, orgs[i], c.events[orgs[i]])
  }

  // The provider answers from this catalog, in well-formed pages.
  ghost predicate Serves(provider: Provider, q: Query, c: Catalog) {
    c.pages != [] && forall p | 1 <= p <= |c.pages| :: ServesPage(provider, q, c, p)
  }

  // A position in the catalog, one past the organizations of a page included.
  predicate InCatalog(c: Catalog, at: Position) {
    && 1 <= at.orgPage <= |c.pages| && 1 <= at.eventPage
    && at.orgIndex <= |c.pages[at.orgPage - 1]|
    && if at.orgIndex < |c.pages[at.orgPage - 1]| then
         var org := c.pages[at.orgPage - 1][at.orgIndex];
         org in c.events && at.eventPage <= |c.events[org]|
       else at.eventPage == 1
  }

  // ---------------------------------------------------------------- the flat enumeration

  function EventsFrom(q: Query, pages: seq<seq<Event>>, e: nat): seq<Event>
    requires 1 <= e <= |pages| + 1
    decreases |pages| + 1 - e
  {
    if e == |pages| + 1 then [] else Filter(q, pages[e - 1]) + EventsFrom(q, pages, e + 1)
  }

  ghost predicate CatalogOk(c: Catalog) {
    forall p, i | 0 <= p < |c.pages| && 0 <= i < |c.pages[p]| ::
      c.pages[p][i] in c.events && c.events[c.pages[p][i]] != []
  }

  // All events that pass the filters from a position on, in the order of the levels.
  ghost function From(q: Query, c: Catalog, at: Position): seq<Event>
    requires CatalogOk(c) && InCatalog(c, at)
    decreases |c.pages| - at.orgPage, |c.pages[at.orgPage - 1]| - at.orgIndex
  {
    var orgs := c.pages[at.orgPage - 1];
    if at.orgIndex < |orgs| then
      EventsFrom(q, c.events[orgs[at.orgIndex]], at.eventPage) + From(q, c, Position(at.orgPage, at.orgIndex + 1, 1))
    else if at.orgPage < |c.pages| then From(q, c, Position(at.orgPage + 1, 0, 1))
    else []
  }

  // How many more event pages and organization pages there are to read.
  ghost function Remaining(c: Catalog, at: Position): nat
    requires CatalogOk(c) && InCatalog(c, at)
    decreases |c.pages| - at.orgPage, |c.pages[at.orgPage - 1]| - at.orgIndex
  {
    var orgs := c.pages[at.orgPage - 1];
    if at.orgIndex < |orgs| then
      |c.events[orgs[at.orgIndex]]| - at.eventPage + 1 + Remaining(c, Position(at.orgPage, at.orgIndex + 1, 1))
    else if at.orgPage < |c.pages| then 1 + Remaining(c, Position(at.orgPage + 1, 0, 1))
    else 0
  }

  predicate Before(a: Position, b: Position) {
    || a.orgPage < b.orgPage
    || (a.orgPage == b.orgPage && a.orgIndex < b.orgIndex)
    || (a.orgPage == b.orgPage && a.orgIndex == b.orgIndex && a.eventPage < b.eventPage)
  }

  // One call from `at` found these events and left off at `next`.
  ghost predicate Step(q: Query, c: Catalog, at: Position, found: seq<Event>, next: Option<Position>)
    requires CatalogOk(c) && InCatalog(c, at)
  {
    && (next.Some? ==> InCatalog(c, next.value) && Remaining(c, next.value) < Remaining(c, at))
    && From(q, c, at) == found + (if next.Some? then From(q, c, next.value) else [])
    && DistinctIds(found) && |found| <= q.pageSize
  }

  // ---------------------------------------------------------------- where a call leaves off

  function After(at: Position, moreEvents: bool): Position {
    if moreEvents then Position(at.orgPage, at.orgIndex, at.eventPage + 1)
    else Position(at.orgPage, at.orgIndex + 1, 1)
  }

  // The next page of organizations, if there is one.
  function Turn(c: Catalog, at: Position): Option<Position> {
    if at.orgPage < |c.pages| then Some(Position(at.orgPage + 1, 0, 1)) else None
  }

  // Whether an organization has more event pages than the one at a position.
  predicate MoreEvents(c: Catalog, at: Position)
    requires InCatalog(c, at) && at.orgIndex < |c.pages[at.orgPage - 1]|
  {
    at.eventPage < |c.events[c.pages[at.orgPage - 1][at.orgIndex]]|
  }

  // What the event page at a position has to offer.
  function Offered(q: Query, c: Catalog, at: Position): seq<Event>
    requires InCatalog(c, at) && at.orgIndex < |c.pages[at.orgPage - 1]|
  {
    Filter(q, c.events[c.pages[at.orgPage - 1][at.orgIndex]][at.eventPage - 1])
  }

  lemma AfterCloser(c: Catalog, at: Position)
    requires CatalogOk(c) && InCatalog(c, at) && at.orgIndex < |c.pages[at.orgPage - 1]|
    ensures var next := After(at, MoreEvents(c, at)); InCatalog(c, next) && Remaining(c, next) < Remaining(c, at)
  {
  }

  lemma TurnCloser(c: Catalog, at: Position)
    requires CatalogOk(c) && InCatalog(c, at) && at.orgIndex == |c.pages[at.orgPage - 1]|
    ensures var next := Turn(c, at);
            next.Some? ==> InCatalog(c, next.value) && Remaining(c, next.value) < Remaining(c, at)
  {
  }

  // A position, or the next page if it is past the organizations of its page.
  ghost function Onward(c: Catalog, at: Position): (r: Option<Position>)
    requires CatalogOk(c) && InCatalog(c, at)
    ensures r.Some? ==> InCatalog(c, r.value) && Remaining(c, r.value) <= Remaining(c, at)
    ensures r.None? ==> at.orgPage == |c.pages|
  {
    if at.orgIndex == |c.pages[at.orgPage - 1]| then TurnCloser(c, at); Turn(c, at) else Some(at)
  }

  // Reading event pages of one page of organizations: where that ends, with what, after how many
  // requests.
  ghost function BrowseTo(q: Query, c: Catalog, at: Position, requests: nat): (r: (Position, seq<Event>, nat))
    requires CatalogOk(c) && InCatalog(c, at)
    ensures InCatalog(c, r.0) && r.0.orgPage == at.orgPage && requests <= r.2 && Remaining(c, r.0) <= Remaining(c, at)
    ensures at.orgIndex < |c.pages[at.orgPage - 1]| && requests < MAX_REQUESTS ==>
              Remaining(c, r.0) < Remaining(c, at) && requests < r.2 <= MAX_REQUESTS
    decreases MAX_REQUESTS - requests
  {
    if at.orgIndex == |c.pages[at.orgPage - 1]| || requests >= MAX_REQUESTS then (at, [], requests)
    else
      AfterCloser(c, at);
      var next := After(at, MoreEvents(c, at));
      if Offered(q, c, at) != [] then (next, Offered(q, c, at), requests + 1) else BrowseTo(q, c, next, requests + 1)
  }

  // Where a call that has made some requests leaves off, and what it finds from here on.
  ghost function Landing(q: Query, c: Catalog, at: Position, requests: nat): (r: (Option<Position>, seq<Event>))
    requires CatalogOk(c) && InCatalog(c, at)
    ensures r.0.Some? ==> InCatalog(c, r.0.value) && Remaining(c, r.0.value) <= Remaining(c, at)
    ensures r.0.Some? && requests < MAX_REQUESTS - 1 ==> Remaining(c, r.0.value) < Remaining(c, at)
    decreases MAX_REQUESTS - requests
  {
    if requests >= MAX_REQUESTS then (Some(at), [])
    else if at.orgIndex == |c.pages[at.orgPage - 1]| then
      TurnCloser(c, at);
      var on := Turn(c, at);
      if on.None? then (None, []) else Landing(q, c, on.value, requests + 1)
    else
      var (browsed, found, used) := BrowseTo(q, c, at, requests + 1);
      var on := Onward(c, browsed);
      if on.None? || found != [] then (on, found) else Landing(q, c, on.value, used)
  }

  predicate CursorOk(at: Position) {
    && 1 <= at.orgPage <= MAX_POSITION && at.orgIndex <= MAX_POSITION && 1 <= at.eventPage <= MAX_POSITION
  }

  // Every cursor on the way from here to the end is within its limits.
  ghost predicate Completes(q: Query, c: Catalog, at: Position)
    requires CatalogOk(c) && InCatalog(c, at)
    decreases Remaining(c, at)
  {
    CursorOk(at) && var next := Landing(q, c, at, 0).0; next.Some? ==> Completes(q, c, next.value)
  }

  // Every position of the catalog is within what a cursor may say.
  ghost predicate Bounded(c: Catalog) {
    && |c.pages| <= MAX_POSITION
    && (forall p | 0 <= p < |c.pages| :: |c.pages[p]| <= MAX_POSITION)
    && (forall org | org in c.events :: |c.events[org]| <= MAX_POSITION)
  }

  // The event page here has an event that passes, and is not the last of its organization.
  ghost predicate StopsHere(q: Query, c: Catalog, at: Position) {
    && InCatalog(c, at) && at.orgIndex < |c.pages[at.orgPage - 1]|
    && var pages := c.events[c.pages[at.orgPage - 1][at.orgIndex]];
       at.eventPage < |pages| && Filter(q, pages[at.eventPage - 1]) != []
  }

  // The events of consecutive calls, each resumed from the cursor of the one before, to the end.
  ghost predicate Chain(q: Query, c: Catalog, at: Position, calls: seq<seq<Event>>)
    requires CatalogOk(c) && InCatalog(c, at)
    decreases |calls|
  {
    calls != [] &&
    if |calls| == 1 then Step(q, c, at, calls[0], None)
    else exists next ::
      InCatalog(c, next) && Step(q, c, at, calls[0], Some(next)) && Chain(q, c, next, calls[1..])
  }

  function Joined(calls: seq<seq<Event>>): seq<Event> {
    if calls == [] then [] else calls[0] + Joined(calls[1..])
  }

  // Following the cursors to the end yields the flat enumeration, in at most Remaining + 1 calls.
  lemma {:induction false} ChainComplete(q: Query, c: Catalog, at: Position, calls: seq<seq<Event>>)
    requires CatalogOk(c) && InCatalog(c, at) && Chain(q, c, at, calls)
    ensures Joined(calls) == From(q, c, at)
    ensures |calls| <= Remaining(c, at) + 1
    decreases |calls|
  {
    if |calls| == 1 {
      assert Joined(calls) == calls[0] + [];
    } else {
      var next :| InCatalog(c, next) && Step(q, c, at, calls[0], Some(next)) && Chain(q, c, next, calls[1..]);
      ChainComplete(q, c, next, calls[1..]);
    }
  }

  // No bound of the query rules the event out; one on the creation rules out an event without any.
  ghost predicate Selected(q: Query, e: Event) {
    && (forall t | q.changedSince == Some(t) :: t <= e.changed)
    && (forall t | q.changedUntil == Some(t) :: e.changed <= t)
    && (forall t | q.createdSince == Some(t) :: e.created.Some? && t <= e.created.value)
    && (forall t | q.createdUntil == Some(t) :: e.created.Some? && e.created.value <= t)
  }

  lemma WithinBounds(time: Option<int>, since: Option<int>, until: Option<int>)
    requires forall t | since == Some(t) :: time.Some? && t <= time.value
    requires forall t | until == Some(t) :: time.Some? && time.value <= t
    ensures Within(time, since, until)
  {
    if since.Some? {
      var t := since.value;
      assert since == Some(t);
    }
    if until.Some? {
      var t := until.value;
      assert until == Some(t);
    }
  }

  lemma PassesExactly(q: Query, e: Event)
    ensures Passes(q, e) <==> Selected(q, e)
  {
    if Selected(q, e) {
      WithinBounds(Some(e.changed), q.changedSince, q.changedUntil);
      WithinBounds(e.created, q.createdSince, q.createdUntil);
    }
  }

  // The event is on this event page and passes the filters.
  ghost predicate Holds(q: Query, c: Catalog, p: Position, e: Event) {
    && Selected(q, e)
    && 1 <= p.orgPage <= |c.pages| && p.orgIndex < |c.pages[p.orgPage - 1]|
    && var org := c.pages[p.orgPage - 1][p.orgIndex];
       org in c.events && 1 <= p.eventPage <= |c.events[org]| && e in c.events[org][p.eventPage - 1]
  }

  predicate AtOrAfter(a: Position, b: Position) {
    a == b || Before(a, b)
  }

  lemma {:induction false} FilterExact(q: Query, es: seq<Event>, e: Event)
    ensures e in Filter(q, es) <==> e in es && Passes(q, e)
  {
    if es != [] {
      FilterExact(q, es[..|es| - 1], e);
      assert es == es[..|es| - 1] + [es[|es| - 1]];
    }
  }

  lemma {:induction false} EventsExact(q: Query, pages: seq<seq<Event>>, k: nat, e: Event)
    requires 1 <= k <= |pages| + 1
    ensures e in EventsFrom(q, pages, k) <==>
      Passes(q, e) && exists j {:trigger pages[j - 1]} | k <= j <= |pages| :: e in pages[j - 1]
    decreases |pages| + 1 - k
  {
    if k <= |pages| {
      FilterExact(q, pages[k - 1], e);
      EventsExact(q, pages, k + 1, e);
    }
  }

  // The enumeration from a position has exactly the events on that event page and on later ones.
  lemma {:induction false} FromExact(q: Query, c: Catalog, at: Position, e: Event)
    requires CatalogOk(c) && InCatalog(c, at)
    ensures e in From(q, c, at) <==> exists p :: AtOrAfter(at, p) && Holds(q, c, p, e)
    decreases |c.pages| - at.orgPage, |c.pages[at.orgPage - 1]| - at.orgIndex
  {
    hide EventsFrom, Passes, Selected;
    var orgs := c.pages[at.orgPage - 1];
    PassesExactly(q, e);
    if at.orgIndex < |orgs| {
      var pages, next := c.events[orgs[at.orgIndex]], Position(at.orgPage, at.orgIndex + 1, 1);
      EventsExact(q, pages, at.eventPage, e);
      FromExact(q, c, next, e);
      if e in EventsFrom(q, pages, at.eventPage) {
        var j :| at.eventPage <= j <= |pages| && e in pages[j - 1];
        assert Holds(q, c, Position(at.orgPage, at.orgIndex, j), e);
      } else if e in From(q, c, next) {
        var p :| AtOrAfter(next, p) && Holds(q, c, p, e);
        assert AtOrAfter(at, p);
      }
      if p :| AtOrAfter(at, p) && Holds(q, c, p, e) {
        if p.orgPage == at.orgPage && p.orgIndex == at.orgIndex {
          assert e in pages[p.eventPage - 1];
        } else {
          assert AtOrAfter(next, p);
        }
      }
    } else if at.orgPage < |c.pages| {
      var next := Position(at.orgPage + 1, 0, 1);
      FromExact(q, c, next, e);
      if e in From(q, c, next) {
        var p :| AtOrAfter(next, p) && Holds(q, c, p, e);
        assert AtOrAfter(at, p);
      }
      if p :| AtOrAfter(at, p) && Holds(q, c, p, e) {
        assert AtOrAfter(next, p);
      }
    }
  }

  // Browsing from the start to the end finds exactly the events of the catalog that pass the filters.
  lemma ChainExact(q: Query, c: Catalog, calls: seq<seq<Event>>, e: Event)
    requires CatalogOk(c) && InCatalog(c, START) && Chain(q, c, START, calls)
    ensures e in Joined(calls) <==> exists p :: Holds(q, c, p, e)
  {
    ChainComplete(q, c, START, calls);
    FromExact(q, c, START, e);
    if p :| Holds(q, c, p, e) {
      assert AtOrAfter(START, p);
    }
  }

  lemma ServesOk(provider: Provider, q: Query, c: Catalog)
    requires Serves(provider, q, c)
    ensures CatalogOk(c) && InCatalog(c, START)
  {
    forall p, i | 0 <= p < |c.pages| && 0 <= i < |c.pages[p]|
      ensures c.pages[p][i] in c.events && c.events[c.pages[p][i]] != []
    {
      assert ServesPage(provider, q, c, p + 1);
    }
    assert ServesPage(provider, q, c, 1);
  }

  // ---------------------------------------------------------------- one call

  // The rows of a reply, if it is well formed and within the limit.
  method ProductRows<T>(reply: Reply<T>, limit: nat) returns (r: Option<(seq<Option<T>>, bool)>)
    ensures r == if reply.Reply? && |reply.rows| <= limit && (reply.more ==> reply.rows != [])
                 then Some((reply.rows, reply.more)) else None
  {
    if reply.BadReply? || |reply.rows| > limit || (reply.more && reply.rows == []) {
      return None;
    }
    return Some((reply.rows, reply.more));
  }

  // The events of one page that pass the filters, by id; None if any row is not one asked for.
  function Collect(q: Query, values: seq<Option<Event>>): Option<map<string, Event>> {
    if values == [] then Some(map[])
    else
      var last := values[|values| - 1];
      match Collect(q, values[..|values| - 1])
      case None => None
      case Some(rows) =>
        if last.None? || last.value.status !in q.statuses then None
        else Some(if Passes(q, last.value) then rows[last.value.id := last.value] else rows)
  }

  lemma {:induction false} CollectKeyed(q: Query, values: seq<Option<Event>>)
    ensures var rows := Collect(q, values); rows.Some? ==> Keyed(rows.value)
    decreases |values|
  {
    if values != [] {
      CollectKeyed(q, values[..|values| - 1]);
    }
  }

  lemma DistinctFront(es: seq<Event>)
    requires DistinctIds(es) && es != []
    ensures var front, last := es[..|es| - 1], es[|es| - 1];
            DistinctIds(front) && forall e | e in front :: e.id != last.id
  {
    var front, last := es[..|es| - 1], es[|es| - 1];
    forall e | e in front ensures e.id != last.id {
      var i :| 0 <= i < |front| && front[i] == e;
      assert es[i] == e;
    }
  }

  lemma InFront(es: seq<Event>, e: Event)
    requires es != []
    ensures e in es <==> e in es[..|es| - 1] || e == es[|es| - 1]
  {
    assert es == es[..|es| - 1] + [es[|es| - 1]];
  }

  // The events of a page of distinct ones, by id.
  lemma {:induction false} IndexAt(es: seq<Event>, e: Event)
    requires DistinctIds(es)
    ensures e in es <==> e.id in Index(es) && Index(es)[e.id] == e
  {
    hide DistinctIds;
    if es != [] {
      DistinctFront(es);
      InFront(es, e);
      IndexAt(es[..|es| - 1], e);
    }
  }

  lemma IndexExact(es: seq<Event>)
    requires DistinctIds(es)
    ensures forall e :: e in es <==> e.id in Index(es) && Index(es)[e.id] == e
  {
    hide Index, DistinctIds;
    forall e ensures e in es <==> e.id in Index(es) && Index(es)[e.id] == e {
      IndexAt(es, e);
    }
  }

  lemma {:induction false} CollectNone(q: Query, values: seq<Option<Event>>, i: nat)
    requires i < |values| && (values[i].None? || values[i].value.status !in q.statuses)
    ensures Collect(q, values).None?
    decreases |values|
  {
    if i < |values| - 1 {
      CollectNone(q, values[..|values| - 1], i);
    }
  }

  lemma {:induction false} CollectServed(q: Query, es: seq<Event>)
    requires forall i | 0 <= i < |es| :: es[i].status in q.statuses
    ensures Collect(q, Rows(es)) == Some(Index(Filter(q, es)))
    decreases |es|
  {
    if es != [] {
      var front, last := es[..|es| - 1], es[|es| - 1];
      CollectServed(q, front);
      assert Rows(es)[..|es| - 1] == Rows(front);
      if Passes(q, last) {
        assert (Filter(q, front) + [last])[..|Filter(q, front)|] == Filter(q, front);
      } else {
        assert Filter(q, front) + [] == Filter(q, front);
      }
    }
  }

  method ReadEvents(q: Query, values: seq<Option<Event>>) returns (r: Option<map<string, Event>>)
    ensures r == Collect(q, values)
  {
    var rows: map<string, Event> := map[];
    for i := 0 to |values|
      invariant Collect(q, values[..i]) == Some(rows)
    {
      assert values[..i + 1][..i] == values[..i];
      if values[i].None? || values[i].value.status !in q.statuses {
        CollectNone(q, values, i);
        return None;
      }
      var event := values[i].value;
      if Passes(q, event) {
        rows := rows[event.id := event];
      }
    }
    assert values[..|values|] == values;
    return Some(rows);
  }

  predicate Ordered(since: Option<int>, until: Option<int>) {
    since.Some? && until.Some? ==> since.value <= until.value
  }

  // A query that asks for a possible page: of some known statuses, and not from a later to an earlier time.
  ghost predicate WellFormed(q: Query) {
    && 1 <= q.pageSize <= 20
    && (exists status :: status in q.statuses)
    && (forall status | status in q.statuses ::
          status in ["draft", "live", "started", "ended", "completed", "canceled"])
    && (forall a, b | q.changedSince == Some(a) && q.changedUntil == Some(b) :: a <= b)
    && (forall a, b | q.createdSince == Some(a) && q.createdUntil == Some(b) :: a <= b)
  }

  lemma QueryExactly(q: Query)
    ensures QueryOk(q) <==> WellFormed(q)
  {
    if WellFormed(q) {
      assert q.statuses != {};
    }
  }

  predicate QueryOk(q: Query) {
    && 1 <= q.pageSize <= MAX_PAGE_SIZE
    && q.statuses != {} && q.statuses <= STATUSES
    && Ordered(q.changedSince, q.changedUntil) && Ordered(q.createdSince, q.createdUntil)
  }

  // The state of a call: nothing is left out between where it started and where it is.
  ghost predicate Reached(q: Query, c: Catalog, start: Position, at: Position, found: seq<Event>) {
    && CatalogOk(c) && InCatalog(c, start) && InCatalog(c, at)
    && From(q, c, start) == found + From(q, c, at)
    && Remaining(c, at) <= Remaining(c, start)
  }

  // Reading on from an organization's event page.
  lemma ReadOn(provider: Provider, q: Query, c: Catalog, start: Position, at: Position, page: seq<Event>, more: bool)
    requires Serves(provider, q, c) && Reached(q, c, start, at, [])
    requires at.orgIndex < |c.pages[at.orgPage - 1]|
    requires provider.events(c.pages[at.orgPage - 1][at.orgIndex], at.eventPage) == Reply(Rows(page), more)
    ensures EventPageOk(q, page)
    ensures var next := if more then Position(at.orgPage, at.orgIndex, at.eventPage + 1)
                        else Position(at.orgPage, at.orgIndex + 1, 1);
            Reached(q, c, start, next, Filter(q, page)) && Remaining(c, next) < Remaining(c, at)
  {
    hide Filter;
    var orgs := c.pages[at.orgPage - 1];
    var pages := c.events[orgs[at.orgIndex]];
    assert ServesPage(provider, q, c, at.orgPage);
    assert ServesEvents(provider, q, orgs[at.orgIndex], pages);
    assert pages[at.eventPage - 1] == page by {
      RowsInjective(page, pages[at.eventPage - 1]);
    }
    assert more == (at.eventPage < |pages|);
    if !more && at.orgIndex + 1 < |orgs| {
      assert orgs[at.orgIndex + 1] in c.events && c.events[orgs[at.orgIndex + 1]] != [];
    }
    FromStep(q, c, at, page, more);
    assert [] + From(q, c, at) == From(q, c, at);
  }

  lemma FromStep(q: Query, c: Catalog, at: Position, page: seq<Event>, more: bool)
    requires CatalogOk(c) && InCatalog(c, at) && at.orgIndex < |c.pages[at.orgPage - 1]|
    requires var pages := c.events[c.pages[at.orgPage - 1][at.orgIndex]];
             page == pages[at.eventPage - 1] && more == (at.eventPage < |pages|)
    ensures var next := if more then Position(at.orgPage, at.orgIndex, at.eventPage + 1)
                        else Position(at.orgPage, at.orgIndex + 1, 1);
            InCatalog(c, next) && From(q, c, at) == Filter(q, page) + From(q, c, next)
  {
    hide Filter;
    var orgs := c.pages[at.orgPage - 1];
    var pages := c.events[orgs[at.orgIndex]];
    var rest := From(q, c, Position(at.orgPage, at.orgIndex + 1, 1));
    if more {
      assert Filter(q, page) + EventsFrom(q, pages, at.eventPage + 1) + rest
             == Filter(q, page) + (EventsFrom(q, pages, at.eventPage + 1) + rest);
    } else {
      assert EventsFrom(q, pages, at.eventPage + 1) == [] && Filter(q, page) + [] == Filter(q, page);
    }
  }

  lemma RowsInjective<T>(a: seq<T>, b: seq<T>)
    requires Rows(a) == Rows(b)
    ensures a == b
  {
    forall i | 0 <= i < |a| ensures a[i] == b[i] {
      assert Rows(a)[i] == Some(a[i]) && Rows(b)[i] == Some(b[i]);
    }
  }

  // Going on to the next page of organizations, or the end.
  lemma TurnPage(provider: Provider, q: Query, c: Catalog, start: Position, at: Position, found: seq<Event>)
    requires Serves(provider, q, c) && Reached(q, c, start, at, found)
    requires at.orgIndex == |c.pages[at.orgPage - 1]|
    ensures at.orgPage < |c.pages| ==>
              var next := Position(at.orgPage + 1, 0, 1);
              Reached(q, c, start, next, found) && Remaining(c, next) < Remaining(c, at)
    ensures at.orgPage == |c.pages| ==> From(q, c, start) == found + []
  {
    if at.orgPage < |c.pages| {
      assert ServesPage(provider, q, c, at.orgPage + 1);
    }
  }

  lemma FilterDistinct(q: Query, es: seq<Event>)
    requires DistinctIds(es)
    ensures DistinctIds(Filter(q, es)) && |Filter(q, es)| <= |es|
    ensures forall e | e in Filter(q, es) :: e in es
  {
    if es != [] {
      var front, last := es[..|es| - 1], es[|es| - 1];
      FilterDistinct(q, front);
      forall e | e in front ensures e.id != last.id {
        var i :| 0 <= i < |front| && front[i] == e;
        assert es[i] == e;
      }
    }
  }

  lemma IndexEmpty(es: seq<Event>)
    ensures Index(es) == map[] <==> es == []
  {
    if es != [] {
      assert es[|es| - 1].id in Index(es);
    }
  }

  ghost predicate Moved(moved: bool, start: Position, at: Position) {
    if moved then Before(start, at) else start == at
  }

  lemma MovedOn(moved: bool, start: Position, at: Position)
    ensures Moved(false, start, start)
    ensures Moved(moved, start, at) ==> Moved(true, start, Position(at.orgPage + 1, 0, 1))
    ensures Moved(true, start, at) ==> Before(start, at)
  {
  }

  // Nothing was left out up to `at`, and the call got nearer to the end if it moved.
  ghost predicate Tracks(provider: Provider, q: Query, c: Catalog, moved: bool, start: Position, at: Position,
                         found: seq<Event>) {
    && Serves(provider, q, c)
    && Reached(q, c, start, at, found)
    && DistinctIds(found) && |found| <= q.pageSize
    && (moved ==> Remaining(c, at) < Remaining(c, start))
  }

  lemma TracksStart(provider: Provider, q: Query, c: Catalog, start: Position)
    requires Serves(provider, q, c) && InCatalog(c, start)
    ensures Tracks(provider, q, c, false, start, start, [])
  {
    ServesOk(provider, q, c);
    assert [] + From(q, c, start) == From(q, c, start);
  }

  // What a served provider answers for the organizations at a position.
  lemma TracksPage(provider: Provider, q: Query, c: Catalog, moved: bool, start: Position, at: Position,
                   found: seq<Event>)
    requires Tracks(provider, q, c, moved, start, at, found)
    ensures 1 <= at.orgPage <= |c.pages|
    ensures var orgs := c.pages[at.orgPage - 1];
            && provider.organizations(at.orgPage) == Reply(Rows(orgs), at.orgPage < |c.pages|)
            && |orgs| <= ORGANIZATION_LIMIT && (at.orgPage < |c.pages| ==> orgs != []) && at.orgIndex <= |orgs|
  {
    assert ServesPage(provider, q, c, at.orgPage);
  }

  lemma TracksTurn(provider: Provider, q: Query, c: Catalog, moved: bool, start: Position, at: Position,
                   found: seq<Event>)
    requires Tracks(provider, q, c, moved, start, at, found)
    requires 1 <= at.orgPage <= |c.pages| && at.orgIndex == |c.pages[at.orgPage - 1]|
    ensures at.orgPage < |c.pages| ==> Tracks(provider, q, c, true, start, Position(at.orgPage + 1, 0, 1), found)
    ensures at.orgPage == |c.pages| ==> CatalogOk(c) && InCatalog(c, start) && Step(q, c, start, found, None)
  {
    TurnPage(provider, q, c, start, at, found);
  }

  // What a served provider answers for one event page, and where reading it leads.
  lemma TracksRead(provider: Provider, q: Query, c: Catalog, moved: bool, start: Position, at: Position)
    requires Tracks(provider, q, c, moved, start, at, [])
    requires 1 <= at.orgPage <= |c.pages| && at.orgIndex < |c.pages[at.orgPage - 1]|
    ensures var org := c.pages[at.orgPage - 1][at.orgIndex];
            && Numeral(org) && org in c.events && 1 <= at.eventPage <= |c.events[org]|
            && var page, more := c.events[org][at.eventPage - 1], at.eventPage < |c.events[org]|;
               && provider.events(org, at.eventPage) == Reply(Rows(page), more)
               && EventPageOk(q, page) && (more ==> page != [])
               && Tracks(provider, q, c, true, start, After(at, more), Filter(q, page))
  {
    assert ServesPage(provider, q, c, at.orgPage);
    var org := c.pages[at.orgPage - 1][at.orgIndex];
    assert ServesEvents(provider, q, org, c.events[org]);
    var page, more := c.events[org][at.eventPage - 1], at.eventPage < |c.events[org]|;
    ReadOn(provider, q, c, start, at, page, more);
    FilterDistinct(q, page);
  }

  lemma TracksStep(provider: Provider, q: Query, c: Catalog, start: Position, at: Position, found: seq<Event>)
    requires Tracks(provider, q, c, true, start, at, found)
    ensures CatalogOk(c) && InCatalog(c, start) && Step(q, c, start, found, Some(at))
  {
  }

  // The events of one organization's page that pass the filters, and whether it has more pages.
  method ReadPage(provider: Provider, q: Query, organization: Option<string>, eventPage: nat)
    returns (r: Option<(map<string, Event>, bool)>)
    ensures forall page, more | organization.Some? && Numeral(organization.value)
              && provider.events(organization.value, eventPage) == Reply(Rows(page), more)
              && EventPageOk(q, page) && (more ==> page != []) ::
              r == Some((Index(Filter(q, page)), more))
    ensures r.Some? ==> Keyed(r.value.0) && organization.Some? && Numeral(organization.value)
  {
    if organization.Some? {
      IdExactly(organization.value);
    }
    if organization.None? || !IsId(organization.value) {
      return None;
    }
    var listing := ProductRows(provider.events(organization.value, eventPage), q.pageSize);
    if listing.None? {
      return None;
    }
    var (values, more) := listing.value;
    var rows := ReadEvents(q, values);
    CollectKeyed(q, values);
    forall page, more |
      provider.events(organization.value, eventPage) == Reply(Rows(page), more) && EventPageOk(q, page)
      ensures rows == Some(Index(Filter(q, page)))
    {
      CollectServed(q, page);
    }
    if rows.None? {
      return None;
    }
    return Some((rows.value, more));
  }

  lemma TracksPlace(provider: Provider, q: Query, c: Catalog, moved: bool, start: Position, at: Position,
                    found: seq<Event>)
    requires Tracks(provider, q, c, moved, start, at, found)
    ensures CatalogOk(c) && InCatalog(c, start) && InCatalog(c, at)
  {
  }

  // One round of the loop over event pages.
  lemma BrowseRound(q: Query, c: Catalog, at: Position, requests: nat)
    requires CatalogOk(c) && InCatalog(c, at) && requests < MAX_REQUESTS && at.orgIndex < |c.pages[at.orgPage - 1]|
    ensures var next, found := After(at, MoreEvents(c, at)), Offered(q, c, at);
            && InCatalog(c, next)
            && BrowseTo(q, c, at, requests) == if found != [] then (next, found, requests + 1)
                                               else BrowseTo(q, c, next, requests + 1)
  {
    hide Offered;
    AfterCloser(c, at);
  }

  lemma BrowseStops(q: Query, c: Catalog, at: Position, requests: nat)
    requires CatalogOk(c) && InCatalog(c, at)
    requires requests >= MAX_REQUESTS || at.orgIndex == |c.pages[at.orgPage - 1]|
    ensures BrowseTo(q, c, at, requests) == (at, [], requests)
  {
  }

  ghost predicate BrowsesTo(q: Query, c: Catalog, from: Position, used: nat, at: Position, found: seq<Event>,
                            requests: nat) {
    CatalogOk(c) && InCatalog(c, from) && BrowseTo(q, c, from, used) == (at, found, requests)
  }

  // The loop over event pages will still end where it would have from where it started.
  ghost predicate BrowsesOn(q: Query, c: Catalog, from: Position, used: nat, at: Position, requests: nat) {
    CatalogOk(c) && InCatalog(c, from) && InCatalog(c, at) && BrowseTo(q, c, from, used) == BrowseTo(q, c, at, requests)
  }

  lemma BrowsesStart(q: Query, c: Catalog, from: Position, used: nat)
    requires CatalogOk(c) && InCatalog(c, from)
    ensures BrowsesOn(q, c, from, used, from, used)
  {
  }

  // The call will still leave off where it would have from where it started.
  ghost predicate LandsOn(q: Query, c: Catalog, start: Position, at: Position, requests: nat) {
    CatalogOk(c) && InCatalog(c, start) && InCatalog(c, at) && Landing(q, c, start, 0) == Landing(q, c, at, requests)
  }

  ghost predicate Lands(q: Query, c: Catalog, start: Position, next: Option<Position>, found: seq<Event>) {
    CatalogOk(c) && InCatalog(c, start) && Landing(q, c, start, 0) == (next, found)
  }

  // One round of that loop, against a provider that serves the catalog.
  lemma BrowseRead(provider: Provider, q: Query, c: Catalog, moved: bool, start: Position, from: Position, used: nat,
                   at: Position, requests: nat)
    requires Tracks(provider, q, c, moved, start, at, []) && BrowsesOn(q, c, from, used, at, requests)
    requires 1 <= at.orgPage <= |c.pages| && at.orgIndex < |c.pages[at.orgPage - 1]| && requests < MAX_REQUESTS
    ensures InCatalog(c, at)
    ensures var org, found := c.pages[at.orgPage - 1][at.orgIndex], Offered(q, c, at);
            && Numeral(org) && org in c.events && 1 <= at.eventPage <= |c.events[org]|
            && var page, more := c.events[org][at.eventPage - 1], MoreEvents(c, at);
               && provider.events(org, at.eventPage) == Reply(Rows(page), more)
               && EventPageOk(q, page) && (more ==> page != []) && found == Filter(q, page)
               && Tracks(provider, q, c, true, start, After(at, more), found)
               && if found != [] then BrowsesTo(q, c, from, used, After(at, more), found, requests + 1)
                  else BrowsesOn(q, c, from, used, After(at, more), requests + 1)
  {
    hide Tracks, Index, EventPageOk, IsId, Numeral, Rows, Serves, Reached, Filter, BrowseTo, Remaining;
    TracksRead(provider, q, c, moved, start, at);
    BrowseRound(q, c, at, requests);
  }

  lemma BrowseEnd(q: Query, c: Catalog, from: Position, used: nat, at: Position, requests: nat)
    requires BrowsesOn(q, c, from, used, at, requests)
    requires requests >= MAX_REQUESTS || at.orgIndex == |c.pages[at.orgPage - 1]|
    ensures BrowsesTo(q, c, from, used, at, [], requests)
  {
    BrowseStops(q, c, at, requests);
  }

  // Reads event pages of the organizations of one page until one has events that pass.
  method Browse(provider: Provider, q: Query, organizations: seq<Option<string>>, from: Position, used: nat,
                checked: nat, expired: nat -> bool, ghost c: Catalog, ghost start: Position, ghost before: bool,
                ghost served: bool)
    returns (r: Result<(Position, map<string, Event>, nat, nat), ReadError>, ghost moved: bool, ghost found: seq<Event>)
    requires from.orgIndex < |organizations| && 1 <= used <= MAX_REQUESTS && 1 <= q.pageSize
    requires used > 1 ==> before
    requires Moved(before, start, from)
    requires served ==> forall n :: !expired(n)
    requires served ==> 1 <= from.orgPage <= |c.pages| && organizations == Rows(c.pages[from.orgPage - 1])
    requires served ==> Tracks(provider, q, c, before, start, from, [])
    ensures served ==> r.Ok?
    ensures r.Ok? ==>
              var (at, rows, requests, checks) := r.value;
              && at.orgPage == from.orgPage && at.orgIndex <= |organizations| && used <= requests <= MAX_REQUESTS
              && (served ==> BrowsesTo(q, c, from, used, at, found, requests))
              && (used < MAX_REQUESTS ==> moved) && (used == MAX_REQUESTS ==> moved == before && at == from)
              && Moved(moved, start, at)
              && (served ==> Tracks(provider, q, c, moved, start, at, found) && rows == Index(found))
              && (rows == map[] ==> found == []) && Keyed(rows)
  {
    hide Tracks, Index, EventPageOk, IsId, Numeral, Rows, Serves, Reached, Filter, InCatalog, CatalogOk, BrowsesTo,
         BrowsesOn, BrowseTo, Offered, MoreEvents;
    var at, requests, checks := from, used, checked;
    var rows: map<string, Event> := map[];
    moved, found := before, [];
    IndexEmpty([]);
    if served {
      TracksPlace(provider, q, c, moved, start, from, []);
      BrowsesStart(q, c, from, used);
    }
    while at.orgIndex < |organizations| && requests < MAX_REQUESTS && |rows| < q.pageSize
      invariant at.orgPage == from.orgPage && at.orgIndex <= |organizations| && used <= requests <= MAX_REQUESTS
      invariant rows == map[] && found == []
      invariant if requests == used then moved == before && at == from else moved
      invariant Moved(moved, start, at)
      invariant served ==> Tracks(provider, q, c, moved, start, at, found) && BrowsesOn(q, c, from, used, at, requests)
      decreases MAX_REQUESTS - requests
    {
      checks := checks + 1;
      if expired(checks) {
        return Err(Timeout), moved, [];
      }
      if served {
        BrowseRead(provider, q, c, moved, start, from, used, at, requests);
        assert organizations[at.orgIndex] == Some(c.pages[at.orgPage - 1][at.orgIndex]);
        found := Offered(q, c, at);
      }
      var read := ReadPage(provider, q, organizations[at.orgIndex], at.eventPage);
      requests := requests + 1;
      if read.None? {
        return Err(InvalidResponse), moved, [];
      }
      rows := read.value.0;
      at, moved := After(at, read.value.1), true;
      IndexEmpty(found);
      if rows != map[] {
        return Ok((at, rows, requests, checks)), moved, found;
      }
    }
    if served {
      BrowseEnd(q, c, from, used, at, requests);
    }
    r := Ok((at, rows, requests, checks));
  }

  // One round of the loop over pages of organizations.
  lemma LandsTurn(q: Query, c: Catalog, start: Position, at: Position, requests: nat)
    requires LandsOn(q, c, start, at, requests) && requests < MAX_REQUESTS && at.orgIndex == |c.pages[at.orgPage - 1]|
    ensures at.orgPage < |c.pages| ==> LandsOn(q, c, start, Position(at.orgPage + 1, 0, 1), requests + 1)
    ensures at.orgPage == |c.pages| ==> Lands(q, c, start, None, [])
  {
    hide Remaining, BrowseTo, Onward;
    TurnCloser(c, at);
  }

  lemma LandsBrowse(q: Query, c: Catalog, start: Position, at: Position, requests: nat, browsed: Position,
                    found: seq<Event>, used: nat)
    requires LandsOn(q, c, start, at, requests) && requests < MAX_REQUESTS && at.orgIndex < |c.pages[at.orgPage - 1]|
    requires BrowsesTo(q, c, at, requests + 1, browsed, found, used)
    ensures 1 <= browsed.orgPage <= |c.pages|
    ensures var past := browsed.orgIndex == |c.pages[browsed.orgPage - 1]|;
            var on := if past then Position(browsed.orgPage + 1, 0, 1) else browsed;
            if past && browsed.orgPage == |c.pages| then Lands(q, c, start, None, found)
            else if found != [] then Lands(q, c, start, Some(on), found) else LandsOn(q, c, start, on, used)
  {
    hide BrowseTo, Remaining;
  }

  lemma LandsStop(q: Query, c: Catalog, start: Position, at: Position, requests: nat)
    requires LandsOn(q, c, start, at, requests)
    ensures requests >= MAX_REQUESTS ==> Lands(q, c, start, Some(at), [])
  {
  }

  lemma QueryPageSize(q: Query)
    requires QueryOk(q)
    ensures 1 <= q.pageSize
  {
  }

  lemma LandsStart(provider: Provider, q: Query, c: Catalog, start: Position)
    requires Serves(provider, q, c) && InCatalog(c, start)
    ensures LandsOn(q, c, start, start, 0)
  {
    ServesOk(provider, q, c);
  }

  // Against a provider that serves the catalog: nothing is left out, and the call will leave off where
  // it would have.
  ghost predicate Follows(served: bool, provider: Provider, q: Query, c: Catalog, moved: bool, start: Position,
                          at: Position, requests: nat) {
    served ==> Tracks(provider, q, c, moved, start, at, []) && LandsOn(q, c, start, at, requests)
  }

  // What it found by then, and where it left off.
  ghost predicate Done(served: bool, q: Query, c: Catalog, start: Position, next: Option<Position>, found: seq<Event>) {
    served ==> CatalogOk(c) && InCatalog(c, start) && Step(q, c, start, found, next) && Lands(q, c, start, next, found)
  }

  lemma FollowsStart(served: bool, provider: Provider, q: Query, c: Catalog, start: Position)
    requires served ==> Serves(provider, q, c) && InCatalog(c, start)
    ensures Follows(served, provider, q, c, false, start, start, 0)
  {
    hide Tracks, LandsOn, InCatalog, Serves;
    if served {
      TracksStart(provider, q, c, start);
      LandsStart(provider, q, c, start);
    }
  }

  // What such a provider answers for the organizations.
  lemma FollowsPage(served: bool, provider: Provider, q: Query, c: Catalog, moved: bool, start: Position, at: Position,
                    requests: nat)
    requires Follows(served, provider, q, c, moved, start, at, requests)
    ensures served ==>
              && 1 <= at.orgPage <= |c.pages|
              && var orgs := c.pages[at.orgPage - 1];
                 && provider.organizations(at.orgPage) == Reply(Rows(orgs), at.orgPage < |c.pages|)
                 && |orgs| <= ORGANIZATION_LIMIT && (at.orgPage < |c.pages| ==> orgs != []) && at.orgIndex <= |orgs|
                 && Tracks(provider, q, c, moved, start, at, [])
  {
    hide Tracks, LandsOn, Rows;
    if served {
      TracksPage(provider, q, c, moved, start, at, []);
    }
  }

  lemma FollowsTurn(served: bool, provider: Provider, q: Query, c: Catalog, moved: bool, start: Position, at: Position,
                    requests: nat)
    requires Follows(served, provider, q, c, moved, start, at, requests) && requests < MAX_REQUESTS
    requires served ==> 1 <= at.orgPage <= |c.pages| && at.orgIndex == |c.pages[at.orgPage - 1]|
    ensures served ==> 1 <= at.orgPage <= |c.pages|
    ensures if served && at.orgPage == |c.pages| then Done(served, q, c, start, None, [])
            else Follows(served, provider, q, c, true, start, Position(at.orgPage + 1, 0, 1), requests + 1)
  {
    hide Tracks, LandsOn, Step, Lands, InCatalog, CatalogOk;
    if served {
      LandsPlace(q, c, start, at, requests);
      TracksTurn(provider, q, c, moved, start, at, []);
      LandsTurn(q, c, start, at, requests);
    }
  }

  lemma LandsPlace(q: Query, c: Catalog, start: Position, at: Position, requests: nat)
    requires LandsOn(q, c, start, at, requests)
    ensures CatalogOk(c) && InCatalog(c, at)
  {
  }

  // The event pages have been read: the call goes on, has found events, or is at the end.
  lemma FollowsBrowse(served: bool, provider: Provider, q: Query, c: Catalog, before: bool, moved: bool,
                      start: Position, from: Position, requests: nat, at: Position, found: seq<Event>, used: nat)
    requires Follows(served, provider, q, c, before, start, from, requests) && requests < MAX_REQUESTS
    requires served ==> 1 <= from.orgPage <= |c.pages| && from.orgIndex < |c.pages[from.orgPage - 1]|
    requires served ==>
      BrowsesTo(q, c, from, requests + 1, at, found, used) && Tracks(provider, q, c, moved, start, at, found)
    ensures served ==> 1 <= at.orgPage <= |c.pages|
    ensures var past := served && at.orgIndex == |c.pages[at.orgPage - 1]|;
            var on := if past then Position(at.orgPage + 1, 0, 1) else at;
            if past && at.orgPage == |c.pages| then Done(served, q, c, start, None, found)
            else if found != [] then past || moved ==> Done(served, q, c, start, Some(on), found)
            else Follows(served, provider, q, c, past || moved, start, on, used)
  {
    hide Tracks, LandsOn, Step, Lands, InCatalog, CatalogOk, BrowsesTo;
    if served {
      LandsPlace(q, c, start, from, requests);
      LandsBrowse(q, c, start, from, requests, at, found, used);
      var past := at.orgIndex == |c.pages[at.orgPage - 1]|;
      if past {
        TracksTurn(provider, q, c, moved, start, at, found);
      }
      if !(past && at.orgPage == |c.pages|) && (past || moved) {
        TracksStep(provider, q, c, start, if past then Position(at.orgPage + 1, 0, 1) else at, found);
      }
    }
  }

  lemma FollowsStop(served: bool, provider: Provider, q: Query, c: Catalog, moved: bool, start: Position, at: Position,
                    requests: nat)
    requires Follows(served, provider, q, c, moved, start, at, requests)
    ensures moved && requests >= MAX_REQUESTS ==> Done(served, q, c, start, Some(at), [])
  {
    hide Tracks, LandsOn, Step, Lands, InCatalog, CatalogOk;
    if served && moved && requests >= MAX_REQUESTS {
      TracksStep(provider, q, c, start, at, []);
      LandsStop(q, c, start, at, requests);
    }
  }

  // What a call finds from a position: where it left off, the rows, and whether that was the end.
  method Traverse(provider: Provider, q: Query, start: Position, expired: nat -> bool, ghost c: Catalog,
                  ghost served: bool)
    returns (r: Result<(Position, map<string, Event>, bool), ReadError>, ghost found: seq<Event>)
    requires 1 <= q.pageSize
    requires served ==> (forall n :: !expired(n)) && Serves(provider, q, c) && InCatalog(c, start)
    ensures served ==> r.Ok?
    ensures r.Ok? ==>
              var (at, rows, complete) := r.value;
              && Keyed(rows) && (!complete ==> Before(start, at)) && (served ==> rows == Index(found))
              && Done(served, q, c, start, if complete then None else Some(at), found)
  {
    hide Tracks, Serves, Reached, InCatalog, CatalogOk, Step, Filter, Index, EventPageOk, IsId, Numeral, Rows, From,
         Remaining, Passes, Collect, DistinctIds, ServesPage, ServesEvents, LandsOn, Lands, BrowsesTo, Landing,
         BrowseTo, Turn, Onward, Moved, Before;
    var at := start;
    var rows: map<string, Event> := map[];
    var requests := 0;
    var checks: nat := 0;
    var complete := false;
    ghost var moved := false;
    found := [];
    MovedOn(moved, start, at);
    FollowsStart(served, provider, q, c, start);
    IndexEmpty([]);
    while requests < MAX_REQUESTS && |rows| < q.pageSize
      invariant requests <= MAX_REQUESTS && !complete
      invariant rows == map[] && found == []
      invariant if requests == 0 then at == start else moved
      invariant Moved(moved, start, at)
      invariant Follows(served, provider, q, c, moved, start, at, requests)
      invariant requests >= MAX_REQUESTS ==> Done(served, q, c, start, Some(at), [])
      decreases MAX_REQUESTS - requests
    {
      checks := checks + 1;
      if expired(checks) {
        return Err(Timeout), [];
      }
      var listed := ProductRows(provider.organizations(at.orgPage), ORGANIZATION_LIMIT);
      FollowsPage(served, provider, q, c, moved, start, at, requests);
      ghost var from, before, made := at, moved, requests;
      requests := requests + 1;
      if listed.None? {
        return Err(InvalidResponse), [];
      }
      var (organizations, moreOrgs) := listed.value;
      if at.orgIndex >= |organizations| {
        if at.orgIndex > |organizations| {
          return Err(InvalidResponse), [];
        }
        FollowsTurn(served, provider, q, c, moved, start, at, made);
        if !moreOrgs {
          complete := true;
          break;
        }
        MovedOn(moved, start, at);
        at, moved := Position(at.orgPage + 1, 0, 1), true;
        FollowsStop(served, provider, q, c, moved, start, at, requests);
        continue;
      }
      var browsed;
      browsed, moved, found := Browse(provider, q, organizations, at, requests, checks, expired, c, start, moved,
                                      served);
      if browsed.Err? {
        return Err(browsed.error), [];
      }
      at, rows, requests, checks := browsed.value.0, browsed.value.1, browsed.value.2, browsed.value.3;
      FollowsBrowse(served, provider, q, c, before, moved, start, from, made, at, found, requests);
      if at.orgIndex == |organizations| {
        if !moreOrgs {
          complete := true;
          break;
        }
        MovedOn(moved, start, at);
        at, moved := Position(at.orgPage + 1, 0, 1), true;
      }
      IndexEmpty(found);
      if rows != map[] {
        break;
      }
      FollowsStop(served, provider, q, c, moved, start, at, requests);
    }
    checks := checks + 1;
    if expired(checks) {
      return Err(Timeout), [];
    }
    MovedOn(moved, start, at);
    r := Ok((at, rows, complete));
  }

  lemma StepDistinct(q: Query, c: Catalog, at: Position, found: seq<Event>, next: Option<Position>)
    requires CatalogOk(c) && InCatalog(c, at) && Step(q, c, at, found, next)
    ensures DistinctIds(found)
  {
  }

  // Lists one page from the cursor, the latest change first. Whatever the provider answers, a page that
  // is not the last moves the cursor forward; a provider that serves a catalog gets exactly its events
  // between the two cursors listed.
  method ListPage(provider: Provider, q: Query, cursor: Option<Position>, expired: nat -> bool, ghost c: Catalog)
    returns (r: Result<Page, ReadError>, ghost found: seq<Event>)
    ensures !WellFormed(q) ==> r == Err(InvalidResponse)
    ensures cursor.Some? && !CursorOk(cursor.value) ==> r == Err(InvalidResponse)
    ensures r.Ok? && cursor.Some? ==>
              var at := cursor.value;
              1 <= at.orgPage <= 1_000_000 && at.orgIndex <= 1_000_000 && 1 <= at.eventPage <= 1_000_000
    ensures r.Ok? ==> Sorted(r.value.events)
    ensures r.Ok? && r.value.next.Some? ==> Before(if cursor.Some? then cursor.value else START, r.value.next.value)
    ensures var start := if cursor.Some? then cursor.value else START;
            WellFormed(q) && (forall n :: !expired(n)) && Serves(provider, q, c) && InCatalog(c, start) ==>
              && CatalogOk(c) && (r.Ok? <==> CursorOk(start))
              && (r.Ok? ==> (forall e :: e in r.value.events <==> e in found)
                            && Step(q, c, start, found, r.value.next) && Lands(q, c, start, r.value.next, found))
  {
    hide Lands, Serves, InCatalog, CatalogOk, Step, Index, QueryOk, WellFormed, Sorted, DistinctIds;
    found := [];
    QueryExactly(q);
    if Serves(provider, q, c) {
      ServesOk(provider, q, c);
    }
    if !QueryOk(q) || (cursor.Some? && !CursorOk(cursor.value)) {
      return Err(InvalidResponse), [];
    }
    var start := if cursor.Some? then cursor.value else START;
    QueryPageSize(q);
    ghost var served := (forall n :: !expired(n)) && Serves(provider, q, c) && InCatalog(c, start);
    var traversed;
    traversed, found := Traverse(provider, q, start, expired, c, served);
    if traversed.Err? {
      return Err(traversed.error), found;
    }
    var (at, rows, complete) := traversed.value;
    var events := SortRows(rows);
    if served {
      StepDistinct(q, c, start, found, if complete then None else Some(at));
      IndexExact(found);
    }
    r := Ok(Page(events, if complete then None else Some(at)));
  }

  // ---------------------------------------------------------------- call after call

  // Lists page after page, each from the cursor of the one before: this ends, and reaches the end of
  // the catalog exactly if no cursor on the way is beyond the limits.
  method BrowseFrom(provider: Provider, q: Query, cursor: Option<Position>, expired: nat -> bool, ghost c: Catalog)
    returns (r: Result<seq<seq<Event>>, ReadError>, ghost calls: seq<seq<Event>>)
    requires WellFormed(q) && (forall n :: !expired(n)) && Serves(provider, q, c) && CatalogOk(c)
    requires InCatalog(c, if cursor.Some? then cursor.value else START)
    ensures r == Err(InvalidResponse) || (r.Ok? && |r.value| == |calls|)
    ensures r.Ok? <==> Completes(q, c, if cursor.Some? then cursor.value else START)
    ensures r.Ok? ==> Chain(q, c, if cursor.Some? then cursor.value else START, calls)
    ensures r.Ok? ==>
      forall i | 0 <= i < |r.value| :: Sorted(r.value[i]) && forall e :: e in r.value[i] <==> e in calls[i]
    decreases Remaining(c, if cursor.Some? then cursor.value else START)
  {
    hide Serves, InCatalog, CatalogOk, WellFormed, Sorted, Remaining, Landing, Chain;
    ghost var start := if cursor.Some? then cursor.value else START;
    var listed;
    ghost var found;
    listed, found := ListPage(provider, q, cursor, expired, c);
    if listed.Err? {
      return Err(InvalidResponse), [];
    }
    var page := listed.value;
    if page.next.None? {
      ChainEnd(q, c, start, found);
      return Ok([page.events]), [found];
    }
    var more;
    ghost var rest;
    more, rest := BrowseFrom(provider, q, page.next, expired, c);
    if more.Err? {
      return Err(InvalidResponse), [];
    }
    r, calls := Ok([page.events] + more.value), [found] + rest;
    ChainMore(q, c, start, found, page.next.value, rest);
  }

  lemma ChainEnd(q: Query, c: Catalog, at: Position, found: seq<Event>)
    requires CatalogOk(c) && InCatalog(c, at) && Step(q, c, at, found, None)
    ensures Chain(q, c, at, [found])
  {
  }

  lemma ChainMore(q: Query, c: Catalog, at: Position, found: seq<Event>, next: Position, rest: seq<seq<Event>>)
    requires CatalogOk(c) && InCatalog(c, at) && InCatalog(c, next) && Step(q, c, at, found, Some(next))
             && Chain(q, c, next, rest)
    ensures Chain(q, c, at, [found] + rest)
  {
    hide Step, From, Remaining;
    assert ([found] + rest)[1..] == rest;
  }

  predicate OnPages(pages: seq<seq<Event>>, e: Event) {
    exists i | 0 <= i < |pages| :: e in pages[i]
  }

  // The event is in the catalog and passes the filters.
  ghost predicate Wanted(q: Query, c: Catalog, e: Event) {
    exists p :: Holds(q, c, p, e)
  }

  // Browsing reaches the end exactly if every cursor is within its limits, and then it has listed
  // exactly the events of the catalog that pass, on sorted pages.
  method BrowseAll(provider: Provider, q: Query, expired: nat -> bool, ghost c: Catalog)
    returns (r: Result<seq<seq<Event>>, ReadError>)
    requires WellFormed(q) && (forall n :: !expired(n)) && Serves(provider, q, c)
    ensures CatalogOk(c) && InCatalog(c, START) && (r.Ok? <==> Completes(q, c, START))
    ensures r.Ok? ==> |r.value| <= Remaining(c, START) + 1
    ensures r.Ok? ==> forall page | page in r.value :: Sorted(page)
    ensures r.Ok? ==> forall e :: OnPages(r.value, e) <==> Wanted(q, c, e)
  {
    hide Serves, WellFormed, Sorted, Chain, Remaining, Holds, Completes;
    ServesOk(provider, q, c);
    ghost var calls;
    r, calls := BrowseFrom(provider, q, None, expired, c);
    if r.Err? {
      return r;
    }
    var pages := r.value;
    ChainComplete(q, c, START, calls);
    forall e ensures OnPages(pages, e) <==> Wanted(q, c, e) {
      ChainExact(q, c, calls, e);
      JoinedExact(calls, e);
      if i :| 0 <= i < |calls| && e in calls[i] {
        assert e in pages[i];
      }
    }
  }

  lemma {:induction false} JoinedExact(calls: seq<seq<Event>>, e: Event)
    ensures e in Joined(calls) <==> exists i :: 0 <= i < |calls| && e in calls[i]
  {
    if calls != [] {
      JoinedExact(calls[1..], e);
      if i :| 0 <= i < |calls| && e in calls[i] {
        assert i == 0 || e in calls[1..][i - 1];
      }
      if i :| 0 <= i < |calls[1..]| && e in calls[1..][i] {
        assert e in calls[i + 1];
      }
    }
  }

  // ---------------------------------------------------------------- the limits of a cursor

  lemma StopsLanding(q: Query, c: Catalog, at: Position)
    requires CatalogOk(c) && StopsHere(q, c, at)
    ensures Landing(q, c, at, 0).0 == Some(After(at, true))
  {
    hide Filter;
    BrowseRound(q, c, at, 1);
  }

  // A call succeeds with a cursor that the next call refuses.
  method RefusedCursor(provider: Provider, q: Query, start: Position, expired: nat -> bool, ghost c: Catalog)
    returns (next: Position, r: Result<Page, ReadError>)
    requires WellFormed(q) && CursorOk(start) && (forall n :: !expired(n)) && Serves(provider, q, c)
    requires StopsHere(q, c, start) && start.eventPage == MAX_POSITION
    ensures next == After(start, true) && InCatalog(c, next) && r == Err(InvalidResponse)
  {
    hide Serves, Sorted, CatalogOk, Step, Filter, Landing;
    ServesOk(provider, q, c);
    StopsLanding(q, c, start);
    var listed, _ := ListPage(provider, q, Some(start), expired, c);
    next := listed.value.next.value;
    var refused, _ := ListPage(provider, q, Some(next), expired, c);
    r := refused;
  }

  // Within the limits browsing reaches the end.
  lemma {:induction false} BoundedCompletes(q: Query, c: Catalog, at: Position)
    requires CatalogOk(c) && InCatalog(c, at) && Bounded(c)
    ensures Completes(q, c, at)
    decreases Remaining(c, at)
  {
    hide Landing, Remaining;
    var next := Landing(q, c, at, 0).0;
    if next.Some? {
      BoundedCompletes(q, c, next.value);
    }
  }

  // One round of a call, or its end.
  lemma LandingRound(q: Query, c: Catalog, at: Position, requests: nat)
    requires CatalogOk(c) && InCatalog(c, at)
    ensures requests >= MAX_REQUESTS ==> Landing(q, c, at, requests) == (Some(at), [])
    ensures requests < MAX_REQUESTS && at.orgIndex == |c.pages[at.orgPage - 1]| ==>
              var on := Turn(c, at);
              && (on.Some? ==> InCatalog(c, on.value))
              && Landing(q, c, at, requests) == if on.None? then (None, []) else Landing(q, c, on.value, requests + 1)
    ensures requests < MAX_REQUESTS && at.orgIndex < |c.pages[at.orgPage - 1]| ==>
              var (browsed, found, used) := BrowseTo(q, c, at, requests + 1);
              var on := Onward(c, browsed);
              Landing(q, c, at, requests)
              == if on.None? || found != [] then (on, found) else Landing(q, c, on.value, used)
  {
    hide Filter, Remaining, BrowseTo, Onward;
    if at.orgIndex == |c.pages[at.orgPage - 1]| {
      TurnCloser(c, at);
    }
  }

  // Not past the organization at this place.
  predicate Ahead(at: Position, orgPage: nat, orgIndex: nat) {
    at.orgPage < orgPage || (at.orgPage == orgPage && at.orgIndex <= orgIndex)
  }

  // Not past it, and if it is being read, there is room for so many of its pages.
  predicate Room(at: Position, orgPage: nat, orgIndex: nat, pages: nat, room: int) {
    Ahead(at, orgPage, orgIndex) && (at.orgPage == orgPage && at.orgIndex == orgIndex ==> at.eventPage + room <= pages)
  }

  // An organization with so many event pages.
  predicate HasPages(c: Catalog, orgPage: nat, orgIndex: nat, pages: nat) {
    && 1 <= orgPage <= |c.pages| && orgIndex < |c.pages[orgPage - 1]|
    && var org := c.pages[orgPage - 1][orgIndex]; org in c.events && |c.events[org]| == pages
  }

  lemma {:induction false} BrowseAhead(q: Query, c: Catalog, at: Position, requests: nat, orgPage: nat, orgIndex: nat,
                                       pages: nat)
    requires CatalogOk(c) && InCatalog(c, at) && HasPages(c, orgPage, orgIndex, pages) && MAX_REQUESTS <= pages
    requires requests <= MAX_REQUESTS && Room(at, orgPage, orgIndex, pages, MAX_REQUESTS - requests)
    ensures var (browsed, _, used) := BrowseTo(q, c, at, requests);
            used <= MAX_REQUESTS && Room(browsed, orgPage, orgIndex, pages, MAX_REQUESTS - used)
    decreases MAX_REQUESTS - requests
  {
    hide Filter, Remaining;
    if requests < MAX_REQUESTS && at.orgIndex < |c.pages[at.orgPage - 1]| {
      BrowseRound(q, c, at, requests);
      BrowseAhead(q, c, After(at, MoreEvents(c, at)), requests + 1, orgPage, orgIndex, pages);
    } else {
      BrowseStops(q, c, at, requests);
    }
  }

  // A call does not get past an organization that has room for all its requests.
  lemma {:induction false} LandsAhead(q: Query, c: Catalog, at: Position, requests: nat, orgPage: nat, orgIndex: nat,
                                      pages: nat)
    requires CatalogOk(c) && InCatalog(c, at) && HasPages(c, orgPage, orgIndex, pages) && MAX_REQUESTS <= pages
    requires requests <= MAX_REQUESTS && Room(at, orgPage, orgIndex, pages, MAX_REQUESTS - 1 - requests)
    ensures var next := Landing(q, c, at, requests).0; next.Some? && Ahead(next.value, orgPage, orgIndex)
    decreases MAX_REQUESTS - requests
  {
    hide Filter, Remaining, BrowseTo, Landing;
    LandingRound(q, c, at, requests);
    if requests < MAX_REQUESTS {
      if at.orgIndex == |c.pages[at.orgPage - 1]| {
        TurnCloser(c, at);
        LandsAhead(q, c, Turn(c, at).value, requests + 1, orgPage, orgIndex, pages);
      } else {
        BrowseAhead(q, c, at, requests + 1, orgPage, orgIndex, pages);
        var (browsed, _, used) := BrowseTo(q, c, at, requests + 1);
        LandsAhead(q, c, Onward(c, browsed).value, used, orgPage, orgIndex, pages);
      }
    }
  }

  lemma {:induction false} LongOrganization(q: Query, c: Catalog, at: Position, orgPage: nat, orgIndex: nat, pages: nat)
    requires CatalogOk(c) && InCatalog(c, at) && Ahead(at, orgPage, orgIndex)
    requires HasPages(c, orgPage, orgIndex, pages) && MAX_POSITION + 3 <= pages
    ensures !Completes(q, c, at)
    decreases Remaining(c, at)
  {
    hide Landing, Remaining, HasPages;
    if CursorOk(at) {
      LandsAhead(q, c, at, 0, orgPage, orgIndex, pages);
      LongOrganization(q, c, Landing(q, c, at, 0).0.value, orgPage, orgIndex, pages);
    }
  }

  // Only the last page of organizations may be empty.
  predicate PagesFull(c: Catalog) {
    forall p | 0 <= p < |c.pages| - 1 :: c.pages[p] != []
  }

  // An organization to read, or the end.
  predicate Proper(c: Catalog, at: Position)
    requires InCatalog(c, at)
  {
    at.orgIndex < |c.pages[at.orgPage - 1]| || at.orgPage == |c.pages|
  }

  lemma OnwardProper(c: Catalog, at: Position)
    requires CatalogOk(c) && InCatalog(c, at) && PagesFull(c)
    ensures var on := Onward(c, at); on.Some? ==> Proper(c, on.value) && on.value.orgPage <= at.orgPage + 1
  {
    hide Remaining;
    assert at.orgPage < |c.pages| - 1 ==> c.pages[at.orgPage] != [];
  }

  // A page of organizations that is not the last costs two requests.
  lemma {:induction false} LandsNear(q: Query, c: Catalog, at: Position, requests: nat)
    requires CatalogOk(c) && InCatalog(c, at) && PagesFull(c) && Proper(c, at)
    ensures var next := Landing(q, c, at, requests).0;
            if next.Some? then Proper(c, next.value) else 2 * (|c.pages| - at.orgPage) + 1 <= MAX_REQUESTS - requests
    decreases MAX_REQUESTS - requests
  {
    hide Filter, Remaining, BrowseTo, Landing, Onward, CatalogOk, PagesFull;
    LandingRound(q, c, at, requests);
    if requests < MAX_REQUESTS && at.orgIndex < |c.pages[at.orgPage - 1]| {
      if requests + 1 == MAX_REQUESTS {
        BrowseStops(q, c, at, requests + 1);
      }
      var (browsed, found, used) := BrowseTo(q, c, at, requests + 1);
      var on := Onward(c, browsed);
      OnwardProper(c, browsed);
      if on.Some? && found == [] {
        LandsNear(q, c, on.value, used);
      }
    }
  }

  lemma {:induction false} ManyPages(q: Query, c: Catalog, at: Position)
    requires CatalogOk(c) && InCatalog(c, at) && PagesFull(c) && Proper(c, at) && MAX_POSITION + 2 <= |c.pages|
    ensures !Completes(q, c, at)
    decreases Remaining(c, at)
  {
    hide Landing, Remaining, PagesFull;
    if CursorOk(at) {
      LandsNear(q, c, at, 0);
      ManyPages(q, c, Landing(q, c, at, 0).0.value);
    }
  }

  ghost predicate TooLong(c: Catalog) {
    MAX_POSITION + 2 <= |c.pages| || exists p, i, n :: HasPages(c, p, i, n) && MAX_POSITION + 3 <= n
  }

  // A catalog within the limits is browsed to its end, and one that is too long never is.
  lemma CompletesWithin(provider: Provider, q: Query, c: Catalog)
    requires Serves(provider, q, c)
    ensures CatalogOk(c) && InCatalog(c, START)
    ensures Bounded(c) ==> Completes(q, c, START)
    ensures TooLong(c) ==> !Completes(q, c, START)
  {
    hide Completes, HasPages;
    ServesOk(provider, q, c);
    if Bounded(c) {
      BoundedCompletes(q, c, START);
    }
    if MAX_POSITION + 2 <= |c.pages| {
      forall p | 0 <= p < |c.pages| - 1 ensures c.pages[p] != [] {
        assert ServesPage(provider, q, c, p + 1);
      }
      ManyPages(q, c, START);
    }
    if p, i, n :| HasPages(c, p, i, n) && MAX_POSITION + 3 <= n {
      LongPlace(c, p, i, n);
      LongOrganization(q, c, START, p, i, n);
    }
  }

  lemma LongPlace(c: Catalog, orgPage: nat, orgIndex: nat, pages: nat)
    requires HasPages(c, orgPage, orgIndex, pages)
    ensures Ahead(START, orgPage, orgIndex)
  {
  }

  // ---------------------------------------------------------------- between the two

  // One organization with one draft on each of its event pages.
  const DRAFT := Event("1", "draft", 0, Some(0))

  function OneCatalog(pages: nat): Catalog {
    Catalog([["7"]], map["7" := seq(pages, _ => [DRAFT])])
  }

  function OneProvider(pages: nat): Provider {
    Provider(_ => Reply([Some("7")], false), (_, e) => Reply([Some(DRAFT)], e < pages))
  }

  function DraftsSince(changedSince: int): Query {
    Query(1, {"draft"}, Some(changedSince), None, None, None)
  }

  lemma OneServes(pages: nat, changedSince: int)
    requires 1 <= pages
    ensures WellFormed(DraftsSince(changedSince))
            && Serves(OneProvider(pages), DraftsSince(changedSince), OneCatalog(pages))
    ensures CatalogOk(OneCatalog(pages))
  {
    var provider, q, c := OneProvider(pages), DraftsSince(changedSince), OneCatalog(pages);
    assert Rows([DRAFT]) == [Some(DRAFT)] && Rows(["7"]) == [Some("7")];
    assert ServesEvents(provider, q, "7", c.events["7"]);
    assert ServesPage(provider, q, c, 1);
  }

  // With one page too many and an event that passes on each, the last allowed cursor leads to a
  // refused one, and browsing never reaches the end.
  lemma RefusedInput()
    ensures var q, c, at := DraftsSince(0), OneCatalog(MAX_POSITION + 1), Position(1, 0, MAX_POSITION);
            && WellFormed(q) && Serves(OneProvider(MAX_POSITION + 1), q, c) && CursorOk(at) && StopsHere(q, c, at)
            && CatalogOk(c) && !Completes(q, c, START)
  {
    OneServes(MAX_POSITION + 1, 0);
    EachStops(MAX_POSITION);
    EachRefused(1);
  }

  lemma EachStops(e: nat)
    requires 1 <= e <= MAX_POSITION
    ensures StopsHere(DraftsSince(0), OneCatalog(MAX_POSITION + 1), Position(1, 0, e))
  {
    assert Filter(DraftsSince(0), [DRAFT]) == [DRAFT];
  }

  lemma {:induction false} EachRefused(e: nat)
    requires 1 <= e <= MAX_POSITION + 1
    ensures var c := OneCatalog(MAX_POSITION + 1);
            CatalogOk(c) && InCatalog(c, Position(1, 0, e)) && !Completes(DraftsSince(0), c, Position(1, 0, e))
    decreases MAX_POSITION + 1 - e
  {
    hide Landing, Filter, Remaining;
    var q, c := DraftsSince(0), OneCatalog(MAX_POSITION + 1);
    OneServes(MAX_POSITION + 1, 0);
    if e <= MAX_POSITION {
      EachStops(e);
      StopsLanding(q, c, Position(1, 0, e));
      EachRefused(e + 1);
    }
  }

  // With even one more page, and none that passes, every call reads three of them: the cursors are at
  // pages 4, 7 and so on up to the limit, from which the last call reaches the end.
  lemma QuietInput()
    ensures var q, c := DraftsSince(1), OneCatalog(MAX_POSITION + 2);
            && WellFormed(q) && Serves(OneProvider(MAX_POSITION + 2), q, c)
            && CatalogOk(c) && InCatalog(c, START) && !Bounded(c) && Completes(q, c, START)
  {
    OneServes(MAX_POSITION + 2, 1);
    assert "7" in OneCatalog(MAX_POSITION + 2).events;
    QuietCompletes(1);
  }

  lemma QuietRound(e: nat, requests: nat)
    requires 1 <= e <= MAX_POSITION + 2 && requests < MAX_REQUESTS
    ensures var q, c, at := DraftsSince(1), OneCatalog(MAX_POSITION + 2), Position(1, 0, e);
            && CatalogOk(c) && InCatalog(c, at)
            && InCatalog(c, After(at, e < MAX_POSITION + 2))
            && BrowseTo(q, c, at, requests) == BrowseTo(q, c, After(at, e < MAX_POSITION + 2), requests + 1)
  {
    hide Remaining;
    var q, c, at := DraftsSince(1), OneCatalog(MAX_POSITION + 2), Position(1, 0, e);
    OneServes(MAX_POSITION + 2, 1);
    assert Filter(q, [DRAFT]) == [];
    BrowseRound(q, c, at, requests);
  }

  lemma QuietCall(e: nat)
    requires 1 <= e <= MAX_POSITION
    ensures var q, c := DraftsSince(1), OneCatalog(MAX_POSITION + 2);
            && CatalogOk(c) && InCatalog(c, Position(1, 0, e))
            && Landing(q, c, Position(1, 0, e), 0).0 == if e < MAX_POSITION then Some(Position(1, 0, e + 3)) else None
  {
    hide Filter, Remaining, BrowseTo;
    var q, c := DraftsSince(1), OneCatalog(MAX_POSITION + 2);
    QuietRound(e, 1);
    QuietRound(e + 1, 2);
    QuietRound(e + 2, 3);
    var browsed := if e < MAX_POSITION then Position(1, 0, e + 3) else Position(1, 1, 1);
    BrowseStops(q, c, browsed, MAX_REQUESTS);
  }

  lemma {:induction false} QuietCompletes(e: nat)
    requires 1 <= e <= MAX_POSITION && e % 3 == 1
    ensures var c := OneCatalog(MAX_POSITION + 2);
            CatalogOk(c) && InCatalog(c, Position(1, 0, e)) && Completes(DraftsSince(1), c, Position(1, 0, e))
    decreases MAX_POSITION - e
  {
    hide Filter, Remaining, Landing;
    QuietCall(e);
    if e < MAX_POSITION {
      QuietCompletes(e + 3);
    }
  }
}
