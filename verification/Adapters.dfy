// The provider adapters: the calls that one operation makes, whatever the provider answers.
module Adapters {
  import opened Wrappers

  datatype Category = Validation | Authentication | Forbidden | NotFound | RateLimited | Redirect
                    | ProviderError | Timeout | Network | InvalidResponse | InvalidRequest
                    | IdentityMismatch | UnsafeState | ReadbackMismatch | StaleRevision | StaleTemplate
                    | UnownedCollision | UnverifiableTemplate

  datatype Path = OrganizationEvents(organization: nat) | EventPath(id: nat)
                | TemplateLookup(client: nat) | TemplatePath(id: nat) | TemplateUpsert
                | CampaignCreate | CampaignPath(id: nat)

  datatype Call = Get(path: Path) | Post(path: Path, content: nat)

  // An entry of a template lookup.
  datatype Entry = Entry(id: Option<nat>, campaign: bool)

  // What the adapters look at in an answer: its identity and owner, whether its state is the one
  // allowed, its reviewed content, its fingerprint, the template it uses, lookup entries.
  datatype Document = Document(id: Option<nat>, owner: nat, safe: bool, content: nat, digest: nat,
                               template: Option<nat>, entries: seq<Entry>)

  type Reply = Result<Document, Category>

  // A provider answers the last of the calls made to it.
  type Provider = seq<Call> -> Reply

  datatype Receipt = Receipt(confirmed: bool, provider: Option<nat>, error: Option<Category>)

  const MAX_ENTRIES: nat := 100

  // The provider said no: nothing was written.
  predicate Refused(c: Category) {
    c == Validation || c == Authentication || c == Forbidden || c == NotFound || c == RateLimited || c == Redirect
  }

  function Posts(calls: seq<Call>): nat {
    if calls == [] then 0 else Posts(calls[..|calls| - 1]) + (if calls[|calls| - 1].Post? then 1 else 0)
  }

  lemma PostsAppend(calls: seq<Call>, c: Call)
    ensures Posts(calls + [c]) == Posts(calls) + (if c.Post? then 1 else 0)
  {
    assert (calls + [c])[..|calls|] == calls;
  }

  // What one operation may send: a dispatch one post at most, a reconciliation none.
  predicate Permitted(dispatch: bool, calls: seq<Call>) {
    Posts(calls) <= if dispatch then 1 else 0
  }

  // An operation that breaks off has sent no more.
  lemma {:induction false} PermittedPrefix(dispatch: bool, calls: seq<Call>, n: nat)
    requires n <= |calls| && Permitted(dispatch, calls)
    ensures Permitted(dispatch, calls[..n])
    decreases |calls|
  {
    if n < |calls| {
      assert calls[..|calls| - 1][..n] == calls[..n];
      PermittedPrefix(dispatch, calls[..|calls| - 1], n);
    } else {
      assert calls[..n] == calls;
    }
  }

  // ---------------------------------------------------------------- Eventbrite

  function DraftError(d: Document, organization: nat, event: Option<nat>): Option<Category> {
    if d.id.None? then Some(InvalidRequest)
    else if (event.Some? && d.id != event) || d.owner != organization then Some(IdentityMismatch)
    else if !d.safe then Some(UnsafeState)
    else None
  }

  // The draft of this event, of this organization.
  predicate DraftOf(d: Document, organization: nat, event: nat) {
    d.id == Some(event) && d.owner == organization && d.safe
  }

  // Reading the event back is a confirmation only of the very draft that was reviewed.
  predicate Confirms(p: Provider, calls: seq<Call>, organization: nat, event: nat, payload: nat) {
    && calls != [] && calls[|calls| - 1] == Get(EventPath(event))
    && p(calls).Ok? && DraftOf(p(calls).value, organization, event) && p(calls).value.content == payload
  }

  method ConfirmEvent(p: Provider, before: seq<Call>, organization: nat, event: nat, payload: nat)
    returns (receipt: Receipt, calls: seq<Call>)
    ensures calls == before + [Get(EventPath(event))] && Posts(calls) == Posts(before)
    ensures receipt.provider == Some(event)
    ensures receipt.confirmed <==> Confirms(p, calls, organization, event, payload)
  {
    calls := before + [Get(EventPath(event))];
    PostsAppend(before, Get(EventPath(event)));
    var reply := p(calls);
    if reply.Err? {
      return Receipt(false, Some(event), Some(reply.error)), calls;
    }
    var wrong := DraftError(reply.value, organization, Some(event));
    if wrong.Some? {
      return Receipt(false, Some(event), wrong), calls;
    }
    if reply.value.content != payload {
      return Receipt(false, Some(event), Some(ReadbackMismatch)), calls;
    }
    return Receipt(true, Some(event), None), calls;
  }

  // One post; an error is raised exactly if the provider refused it; the id it gives is recorded in any
  // case; its draft is read back, and success is claimed exactly if that is as reviewed.
  method CreateEvent(p: Provider, organization: nat, payload: nat)
    returns (r: Result<Receipt, Category>, calls: seq<Call>)
    ensures Permitted(true, calls)
    ensures var posted := [Post(OrganizationEvents(organization), payload)];
            var id := if p(posted).Ok? then p(posted).value.id else None;
            && Posts(calls) == 1
            && calls == (if id.Some? && DraftOf(p(posted).value, organization, id.value)
                         then posted + [Get(EventPath(id.value))] else posted)
            && (r.Err? <==> p(posted).Err? && Refused(p(posted).error)) && (r.Err? ==> r.error == p(posted).error)
            && (r.Ok? ==> && r.value.provider == id
                          && (r.value.confirmed <==> id.Some? && Confirms(p, calls, organization, id.value, payload)))
  {
    calls := [Post(OrganizationEvents(organization), payload)];
    PostsAppend([], calls[0]);
    assert [] + calls == calls;
    var reply := p(calls);
    if reply.Err? {
      if Refused(reply.error) {
        return Err(reply.error), calls;
      }
      return Ok(Receipt(false, None, Some(reply.error))), calls;
    }
    var wrong := DraftError(reply.value, organization, None);
    if wrong.Some? {
      return Ok(Receipt(false, reply.value.id, wrong)), calls;
    }
    var receipt;
    receipt, calls := ConfirmEvent(p, calls, organization, reply.value.id.value, payload);
    return Ok(receipt), calls;
  }

  // One post exactly over the revision that was reviewed; an error means that nothing was posted or that
  // the provider refused it; success is claimed exactly for a draft read back as reviewed.
  method UpdateEvent(p: Provider, organization: nat, event: nat, payload: nat, expected: nat)
    returns (r: Result<Receipt, Category>, calls: seq<Call>)
    ensures Permitted(true, calls)
    ensures var look := [Get(EventPath(event))];
            var posted := look + [Post(EventPath(event), payload)];
            if p(look).Ok? && DraftOf(p(look).value, organization, event) && p(look).value.digest == expected then
              && Posts(calls) == 1
              && calls == (if p(posted).Ok? && DraftOf(p(posted).value, organization, event)
                           then posted + [Get(EventPath(event))] else posted)
              && (r.Err? <==> p(posted).Err? && Refused(p(posted).error)) && (r.Err? ==> r.error == p(posted).error)
              && (r.Ok? ==> && r.value.provider == Some(event)
                            && (r.value.confirmed <==> Confirms(p, calls, organization, event, payload)))
            else r.Err? && calls == look && Posts(calls) == 0
  {
    calls := [Get(EventPath(event))];
    PostsAppend([], calls[0]);
    assert [] + calls == calls;
    var before := p(calls);
    if before.Err? {
      return Err(before.error), calls;
    }
    var stale := DraftError(before.value, organization, Some(event));
    if stale.Some? {
      return Err(stale.value), calls;
    }
    if before.value.digest != expected {
      return Err(StaleRevision), calls;
    }
    PostsAppend(calls, Post(EventPath(event), payload));
    calls := calls + [Post(EventPath(event), payload)];
    var reply := p(calls);
    if reply.Err? {
      if Refused(reply.error) {
        return Err(reply.error), calls;
      }
      return Ok(Receipt(false, Some(event), Some(reply.error))), calls;
    }
    var wrong := DraftError(reply.value, organization, Some(event));
    if wrong.Some? {
      return Ok(Receipt(false, Some(event), wrong)), calls;
    }
    var receipt;
    receipt, calls := ConfirmEvent(p, calls, organization, event, payload);
    return Ok(receipt), calls;
  }

  // Reconciling posts nothing.
  method ReconcileEvent(p: Provider, organization: nat, event: Option<nat>, payload: nat)
    returns (receipt: Receipt, calls: seq<Call>)
    ensures Permitted(false, calls) && receipt.provider == event
    ensures calls == if event.Some? then [Get(EventPath(event.value))] else []
    ensures receipt.confirmed <==> event.Some? && Confirms(p, calls, organization, event.value, payload)
  {
    if event.None? {
      return Receipt(false, None, None), [];
    }
    receipt, calls := ConfirmEvent(p, [], organization, event.value, payload);
  }

  // ---------------------------------------------------------------- Iterable templates

  method Lookup(p: Provider, before: seq<Call>, client: nat) returns (r: Result<seq<Entry>, Category>, calls: seq<Call>)
    ensures calls == before + [Get(TemplateLookup(client))] && Posts(calls) == Posts(before)
    ensures r.Ok? <==> p(calls).Ok? && |p(calls).value.entries| <= MAX_ENTRIES
                       && forall i | 0 <= i < |p(calls).value.entries| :: p(calls).value.entries[i].id.Some?
    ensures r.Ok? ==> r.value == p(calls).value.entries
  {
    calls := before + [Get(TemplateLookup(client))];
    PostsAppend(before, Get(TemplateLookup(client)));
    var reply := p(calls);
    if reply.Err? {
      return Err(reply.error), calls;
    }
    var entries := reply.value.entries;
    if |entries| > MAX_ENTRIES {
      return Err(InvalidResponse), calls;
    }
    for i := 0 to |entries|
      invariant forall j | 0 <= j < i :: entries[j].id.Some?
    {
      if entries[i].id.None? {
        return Err(InvalidRequest), calls;
      }
    }
    return Ok(entries), calls;
  }

  // The template read back is the only one of its client id, and is as reviewed.
  predicate TemplateConfirms(p: Provider, calls: seq<Call>, client: nat, id: nat, payload: nat) {
    var n := |calls|;
    && n >= 2 && calls[n - 2] == Get(TemplateLookup(client)) && calls[n - 1] == Get(TemplatePath(id))
    && p(calls[..n - 1]).Ok? && p(calls[..n - 1]).value.entries == [Entry(Some(id), false)]
    && p(calls).Ok? && p(calls).value.id == Some(id) && p(calls).value.content == payload && p(calls).value.safe
  }

  // The lookup finds one template, of this id.
  predicate Finds(p: Provider, calls: seq<Call>, id: nat) {
    p(calls).Ok? && p(calls).value.entries == [Entry(Some(id), false)]
  }

  // The template is looked up, and read back if it is the only one and the known one; that confirms it
  // exactly if it is as reviewed.
  ghost predicate TemplateReceipt(p: Provider, before: seq<Call>, client: nat, payload: nat, known: Option<nat>,
                                  receipt: Receipt, calls: seq<Call>) {
    var look := before + [Get(TemplateLookup(client))];
    && Posts(calls) == Posts(before)
    && (forall id: nat | Finds(p, look, id) && (known.None? || known == Some(id)) ::
          && calls == look + [Get(TemplatePath(id))] && receipt.provider == Some(id)
          && (receipt.confirmed <==> TemplateConfirms(p, calls, client, id, payload)))
    && ((forall id: nat | Finds(p, look, id) :: known.Some? && known != Some(id)) ==>
          calls == look && receipt.provider == known && !receipt.confirmed)
  }

  method ConfirmTemplate(p: Provider, before: seq<Call>, client: nat, payload: nat, known: Option<nat>)
    returns (receipt: Receipt, calls: seq<Call>)
    ensures TemplateReceipt(p, before, client, payload, known, receipt, calls)
  {
    var found;
    found, calls := Lookup(p, before, client);
    if found.Err? {
      return Receipt(false, known, Some(found.error)), calls;
    }
    if |found.value| != 1 || found.value[0].campaign {
      return Receipt(false, known, Some(IdentityMismatch)), calls;
    }
    var id := found.value[0].id.value;
    if known.Some? && known != Some(id) {
      return Receipt(false, known, Some(IdentityMismatch)), calls;
    }
    PostsAppend(calls, Get(TemplatePath(id)));
    var looked := calls;
    calls := calls + [Get(TemplatePath(id))];
    assert calls[..|calls| - 1] == looked && found.value == [Entry(Some(id), false)];
    assert Finds(p, looked, id);
    var reply := p(calls);
    if reply.Err? {
      return Receipt(false, Some(id), Some(reply.error)), calls;
    }
    if reply.value.id != Some(id) {
      return Receipt(false, Some(id), Some(IdentityMismatch)), calls;
    }
    if reply.value.content != payload || !reply.value.safe {
      return Receipt(false, Some(id), Some(ReadbackMismatch)), calls;
    }
    return Receipt(true, Some(id), None), calls;
  }

  // One upsert exactly if no template is there already, and then no error is raised any more.
  method CreateTemplate(p: Provider, client: nat, payload: nat) returns (r: Result<Receipt, Category>, calls: seq<Call>)
    ensures Permitted(true, calls)
    ensures var look := [Get(TemplateLookup(client))];
            var posted := look + [Post(TemplateUpsert, payload)];
            if p(look).Ok? && p(look).value.entries == [] then
              && r.Ok? && Posts(calls) == 1
              && (if p(posted).Ok? then TemplateReceipt(p, posted, client, payload, None, r.value, calls)
                  else calls == posted && !r.value.confirmed && r.value.provider == None)
            else r.Err? && calls == look && Posts(calls) == 0
  {
    var found;
    found, calls := Lookup(p, [], client);
    if found.Err? {
      return Err(found.error), calls;
    }
    if found.value != [] {
      return Err(UnownedCollision), calls;
    }
    PostsAppend(calls, Post(TemplateUpsert, payload));
    calls := calls + [Post(TemplateUpsert, payload)];
    var reply := p(calls);
    if reply.Err? {
      return Ok(Receipt(false, None, Some(reply.error))), calls;
    }
    var receipt;
    receipt, calls := ConfirmTemplate(p, calls, client, payload, None);
    return Ok(receipt), calls;
  }

  method ReconcileTemplate(p: Provider, client: nat, payload: nat, known: Option<nat>)
    returns (receipt: Receipt, calls: seq<Call>)
    ensures Permitted(false, calls)
    ensures TemplateReceipt(p, [], client, payload, known, receipt, calls)
  {
    receipt, calls := ConfirmTemplate(p, [], client, payload, known);
  }

  // ---------------------------------------------------------------- Iterable campaigns

  method ReadTemplate(p: Provider, before: seq<Call>, id: nat) returns (r: Result<nat, Category>, calls: seq<Call>)
    ensures calls == before + [Get(TemplatePath(id))] && Posts(calls) == Posts(before)
    ensures r.Ok? <==> p(calls).Ok? && p(calls).value.id == Some(id)
    ensures r.Ok? ==> r.value == p(calls).value.digest
  {
    calls := before + [Get(TemplatePath(id))];
    PostsAppend(before, Get(TemplatePath(id)));
    var reply := p(calls);
    if reply.Err? {
      return Err(reply.error), calls;
    }
    if reply.value.id != Some(id) {
      return Err(IdentityMismatch), calls;
    }
    return Ok(reply.value.digest), calls;
  }

  // The campaign read back is as reviewed, and so is the template it copied.
  predicate CampaignConfirms(p: Provider, calls: seq<Call>, id: nat, payload: nat, template: nat) {
    var n := |calls|;
    && n >= 2 && calls[n - 2] == Get(CampaignPath(id)) && p(calls[..n - 1]).Ok?
    && var campaign := p(calls[..n - 1]).value;
       && campaign.id == Some(id) && campaign.safe && campaign.content == payload && campaign.template.Some?
       && calls[n - 1] == Get(TemplatePath(campaign.template.value))
       && p(calls).Ok? && p(calls).value.id == campaign.template && p(calls).value.digest == template
  }

  // The campaign is read back, and if it is as reviewed the template it copied; that confirms it exactly if
  // both are.
  ghost predicate CampaignReceipt(p: Provider, before: seq<Call>, id: nat, payload: nat, template: nat,
                                  receipt: Receipt, calls: seq<Call>) {
    var read := before + [Get(CampaignPath(id))];
    && Posts(calls) == Posts(before) && receipt.provider == Some(id)
    && (if && p(read).Ok? && p(read).value.id == Some(id) && p(read).value.safe && p(read).value.content == payload
           && p(read).value.template.Some?
        then calls == read + [Get(TemplatePath(p(read).value.template.value))]
        else calls == read)
    && (receipt.confirmed <==> CampaignConfirms(p, calls, id, payload, template))
  }

  method ConfirmCampaign(p: Provider, before: seq<Call>, id: nat, payload: nat, template: nat)
    returns (receipt: Receipt, calls: seq<Call>)
    ensures CampaignReceipt(p, before, id, payload, template, receipt, calls)
  {
    calls := before + [Get(CampaignPath(id))];
    PostsAppend(before, Get(CampaignPath(id)));
    var reply := p(calls);
    if reply.Err? {
      return Receipt(false, Some(id), Some(reply.error)), calls;
    }
    var campaign := reply.value;
    if campaign.id != Some(id) {
      return Receipt(false, Some(id), Some(IdentityMismatch)), calls;
    }
    if !campaign.safe {
      return Receipt(false, Some(id), Some(UnsafeState)), calls;
    }
    if campaign.content != payload {
      return Receipt(false, Some(id), Some(ReadbackMismatch)), calls;
    }
    if campaign.template.None? {
      return Receipt(false, Some(id), Some(UnverifiableTemplate)), calls;
    }
    var read := calls;
    var copied;
    copied, calls := ReadTemplate(p, calls, campaign.template.value);
    assert calls[..|calls| - 1] == read;
    if copied.Err? {
      return Receipt(false, Some(id), Some(copied.error)), calls;
    }
    if copied.value != template {
      return Receipt(false, Some(id), Some(ReadbackMismatch)), calls;
    }
    return Receipt(true, Some(id), None), calls;
  }

  // One post exactly while the template is the one that was reviewed; an error then means that the provider
  // refused it; the id it gives is recorded and the campaign read back.
  method CreateCampaign(p: Provider, source: nat, payload: nat, template: nat)
    returns (r: Result<Receipt, Category>, calls: seq<Call>)
    ensures Permitted(true, calls)
    ensures var look := [Get(TemplatePath(source))];
            var posted := look + [Post(CampaignCreate, payload)];
            if p(look).Ok? && p(look).value.id == Some(source) && p(look).value.digest == template then
              && Posts(calls) == 1
              && (r.Err? <==> p(posted).Err? && Refused(p(posted).error))
              && (r.Err? ==> r.error == p(posted).error && calls == posted)
              && (r.Ok? ==>
                    if p(posted).Ok? && p(posted).value.id.Some?
                    then CampaignReceipt(p, posted, p(posted).value.id.value, payload, template, r.value, calls)
                    else calls == posted && !r.value.confirmed && r.value.provider == None)
            else r.Err? && calls == look && Posts(calls) == 0
  {
    var read;
    read, calls := ReadTemplate(p, [], source);
    assert calls == [Get(TemplatePath(source))];
    if read.Err? {
      return Err(read.error), calls;
    }
    if read.value != template {
      return Err(StaleTemplate), calls;
    }
    PostsAppend(calls, Post(CampaignCreate, payload));
    calls := calls + [Post(CampaignCreate, payload)];
    var reply := p(calls);
    if reply.Err? {
      if Refused(reply.error) {
        return Err(reply.error), calls;
      }
      return Ok(Receipt(false, None, Some(reply.error))), calls;
    }
    if reply.value.id.None? {
      return Ok(Receipt(false, None, Some(InvalidRequest))), calls;
    }
    var receipt;
    receipt, calls := ConfirmCampaign(p, calls, reply.value.id.value, payload, template);
    return Ok(receipt), calls;
  }

  method ReconcileCampaign(p: Provider, id: Option<nat>, payload: nat, template: nat)
    returns (receipt: Receipt, calls: seq<Call>)
    ensures Permitted(false, calls)
    ensures if id.Some? then CampaignReceipt(p, [], id.value, payload, template, receipt, calls)
            else calls == [] && receipt.provider == None && !receipt.confirmed
  {
    if id.None? {
      return Receipt(false, None, None), [];
    }
    receipt, calls := ConfirmCampaign(p, [], id.value, payload, template);
  }
}
