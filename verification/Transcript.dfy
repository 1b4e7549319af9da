// The gateway's check of a chat transcript: one pass with three sets of tool-call ids, against
// the grammar of transcripts it is meant to accept.
module Transcript {
  import opened Wrappers

  // `arguments` is None when the call's argument text is not a bounded JSON object.
  datatype Call = Call(id: string, name: string, arguments: Option<string>)

  // `calls` is None when the message carries none; Malformed stands for any other shape.
  datatype Message =
    | System(content: string)
    | User(content: string)
    | Assistant(text: Option<string>, calls: Option<seq<Call>>)
    | ToolResult(callId: string, content: string)
    | Malformed

  datatype PolicyError = PolicyError(reason: string)

  const MAX_MESSAGES: nat := 64
  const MAX_TOOL_CALLS: nat := 16
  const MAX_CONTENT_BYTES: nat := 32_768
  const MAX_CALL_ID: nat := 128
  const MAX_PAYLOAD_BYTES: nat := 196_608

  // The bytes of a character in UTF-8.
  function Encoded(c: char): (bytes: seq<nat>)
    ensures bytes != []
  {
    var n := c as int;
    if n < 0x80 then [n]
    else if n < 0x800 then [0xC0 + n / 0x40, 0x80 + n % 0x40]
    else if n < 0x1_0000 then [0xE0 + n / 0x1000, 0x80 + n / 0x40 % 0x40, 0x80 + n % 0x40]
    else [0xF0 + n / 0x4_0000, 0x80 + n / 0x1000 % 0x40, 0x80 + n / 0x40 % 0x40, 0x80 + n % 0x40]
  }

  function Utf8Length(s: string): nat {
    if s == "" then 0 else |Encoded(s[0])| + Utf8Length(s[1..])
  }

  predicate Tail(b: nat) {
    0x80 <= b <= 0xBF
  }

  // What a decoder takes for this character: section 4 of RFC 3629, which allows only the shortest form.
  predicate Decodes(b: seq<nat>, n: nat) {
    || (|b| == 1 && b[0] <= 0x7F && n == b[0])
    || (|b| == 2 && 0xC2 <= b[0] <= 0xDF && Tail(b[1]) && n == (b[0] - 0xC0) * 0x40 + (b[1] - 0x80))
    || (&& |b| == 3 && 0xE0 <= b[0] <= 0xEF && Tail(b[1]) && Tail(b[2]) && (b[0] == 0xE0 ==> 0xA0 <= b[1])
        && n == (b[0] - 0xE0) * 0x1000 + (b[1] - 0x80) * 0x40 + (b[2] - 0x80))
    || (&& |b| == 4 && 0xF0 <= b[0] <= 0xF4 && Tail(b[1]) && Tail(b[2]) && Tail(b[3]) && (b[0] == 0xF0 ==> 0x90 <= b[1])
        && n == (b[0] - 0xF0) * 0x4_0000 + (b[1] - 0x80) * 0x1000 + (b[2] - 0x80) * 0x40 + (b[3] - 0x80))
  }

  lemma TwoBytes(n: nat, a: nat, b: nat)
    ensures 0xC2 <= a <= 0xDF && Tail(b) && n == (a - 0xC0) * 0x40 + (b - 0x80)
            <==> 0x80 <= n < 0x800 && a == 0xC0 + n / 0x40 && b == 0x80 + n % 0x40
  {
  }

  lemma ThreeBytes(n: nat, a: nat, b: nat, c: nat)
    ensures && 0xE0 <= a <= 0xEF && Tail(b) && Tail(c) && (a == 0xE0 ==> 0xA0 <= b)
            && n == (a - 0xE0) * 0x1000 + (b - 0x80) * 0x40 + (c - 0x80)
            <==> && 0x800 <= n < 0x1_0000
                 && a == 0xE0 + n / 0x1000 && b == 0x80 + n / 0x40 % 0x40 && c == 0x80 + n % 0x40
  {
  }

  lemma Leading(m: nat, a: nat, b: nat, c: nat)
    requires m < 0x4400
    ensures && 0xF0 <= a <= 0xF4 && Tail(b) && Tail(c) && (a == 0xF0 ==> 0x90 <= b)
            && m == (a - 0xF0) * 0x1000 + (b - 0x80) * 0x40 + (c - 0x80)
            <==> && 0x400 <= m
                 && a == 0xF0 + m / 0x1000 && b == 0x80 + m / 0x40 % 0x40 && c == 0x80 + m % 0x40
  {
  }

  lemma FourBytes(n: nat, a: nat, b: nat, c: nat, d: nat)
    requires n < 0x11_0000
    ensures && 0xF0 <= a <= 0xF4 && Tail(b) && Tail(c) && Tail(d) && (a == 0xF0 ==> 0x90 <= b)
            && n == (a - 0xF0) * 0x4_0000 + (b - 0x80) * 0x1000 + (c - 0x80) * 0x40 + (d - 0x80)
            <==> && 0x1_0000 <= n && a == 0xF0 + n / 0x4_0000
                 && b == 0x80 + n / 0x1000 % 0x40 && c == 0x80 + n / 0x40 % 0x40 && d == 0x80 + n % 0x40
  {
    var m := n / 0x40;
    Leading(m, a, b, c);
    assert n == m * 0x40 + n % 0x40;
    assert n / 0x1000 == m / 0x40 && n / 0x4_0000 == m / 0x1000;
  }

  // These bytes, and no others, are decoded as the character.
  lemma EncodedExactly(c: char, b: seq<nat>)
    ensures Decodes(b, c as int) <==> b == Encoded(c)
  {
    hide Tail;
    if |b| == 2 {
      TwoBytes(c as int, b[0], b[1]);
    } else if |b| == 3 {
      ThreeBytes(c as int, b[0], b[1], b[2]);
    } else if |b| == 4 {
      FourBytes(c as int, b[0], b[1], b[2], b[3]);
    }
  }

  predicate Bounded(content: string) {
    Utf8Length(content) <= MAX_CONTENT_BYTES
  }

  predicate IsIdChar(c: char) {
    || 'A' <= c <= 'Z' || 'a' <= c <= 'z' || '0' <= c <= '9'
    || c == '_' || c == '.' || c == ':' || c == '-'
  }

  predicate IsCallId(id: string) {
    1 <= |id| <= MAX_CALL_ID && forall i | 0 <= i < |id| :: IsIdChar(id[i])
  }

  // Code points of hyphen and full stop, digits and colon, capitals, underscore and small letters.
  predicate IdCode(n: int) {
    0x2D <= n <= 0x2E || 0x30 <= n <= 0x3A || 0x41 <= n <= 0x5A || n == 0x5F || 0x61 <= n <= 0x7A
  }

  lemma IdExactly(id: string)
    ensures IsCallId(id) <==> 1 <= |id| <= 128 && forall c | c in id :: IdCode(c as int)
  {
    forall i | 0 <= i < |id| ensures IsIdChar(id[i]) <==> IdCode(id[i] as int) {
      assert id[i] in id;
    }
    if IsCallId(id) {
      forall c | c in id ensures IdCode(c as int) {
        var i :| 0 <= i < |id| && id[i] == c;
      }
    } else if 1 <= |id| <= 128 {
      var i :| 0 <= i < |id| && !IsIdChar(id[i]);
      assert id[i] in id;
    }
  }

  // A call that names a declared tool and is well formed, apart from its id being new.
  predicate CallOk(call: Call, declared: set<string>) {
    IsCallId(call.id) && call.name in declared && call.arguments.Some?
  }

  // ---------------------------------------------------------------- grammar

  // A call of a declared tool: an id of one to 128 of these characters, and arguments that are an object.
  ghost predicate Callable(call: Call, declared: set<string>) {
    && 1 <= |call.id| <= 128 && (forall c | c in call.id :: IdCode(c as int))
    && call.name in declared && exists a :: call.arguments == Some(a)
  }

  lemma CallExactly(call: Call, declared: set<string>)
    ensures CallOk(call, declared) <==> Callable(call, declared)
  {
    IdExactly(call.id);
    if call.arguments.Some? {
      assert call.arguments == Some(call.arguments.value);
    }
  }

  datatype Answered = Answered(call: Call, result: string)

  // A transcript is plain messages and exchanges: an assistant message with calls, then their results.
  datatype Block =
    | Plain(message: Message)
    | Exchange(text: Option<string>, answered: seq<Answered>)

  function Calls(answered: seq<Answered>): (r: seq<Call>)
    ensures |r| == |answered|
    ensures forall i | 0 <= i < |r| :: r[i] == answered[i].call
  {
    seq(|answered|, i requires 0 <= i < |answered| => answered[i].call)
  }

  function Results(answered: seq<Answered>): (r: seq<Message>)
    ensures |r| == |answered|
    ensures forall i | 0 <= i < |r| :: r[i] == ToolResult(answered[i].call.id, answered[i].result)
  {
    seq(|answered|, i requires 0 <= i < |answered| => ToolResult(answered[i].call.id, answered[i].result))
  }

  function CallIds(calls: seq<Call>): (r: seq<string>)
    ensures |r| == |calls|
    ensures forall i | 0 <= i < |r| :: r[i] == calls[i].id
  {
    seq(|calls|, i requires 0 <= i < |calls| => calls[i].id)
  }

  predicate PlainOk(message: Message) {
    match message
    case System(content) => Bounded(content)
    case User(content) => Bounded(content)
    case Assistant(text, calls) => calls.None? && text.Some? && Bounded(text.value)
    case _ => false
  }

  ghost predicate BlockOk(block: Block, declared: set<string>) {
    match block
    case Plain(message) => PlainOk(message)
    case Exchange(text, answered) =>
      && (text.Some? ==> Bounded(text.value))
      && 1 <= |answered| <= MAX_TOOL_CALLS
      && forall i | 0 <= i < |answered| :: Callable(answered[i].call, declared) && Bounded(answered[i].result)
  }

  function Spell(block: Block): (r: seq<Message>)
    ensures r != []
  {
    match block
    case Plain(message) => [message]
    case Exchange(text, answered) => [Assistant(text, Some(Calls(answered)))] + Results(answered)
  }

  function Flatten(blocks: seq<Block>): seq<Message> {
    if blocks == [] then [] else Spell(blocks[0]) + Flatten(blocks[1..])
  }

  function BlockIds(block: Block): seq<string> {
    if block.Exchange? then CallIds(Calls(block.answered)) else []
  }

  function Ids(blocks: seq<Block>): seq<string> {
    if blocks == [] then [] else BlockIds(blocks[0]) + Ids(blocks[1..])
  }

  predicate Distinct(ids: seq<string>) {
    forall i, j | 0 <= i < j < |ids| :: ids[i] != ids[j]
  }

  predicate Disjoint(ids: seq<string>, seen: set<string>) {
    forall i | 0 <= i < |ids| :: ids[i] !in seen
  }

  // These blocks spell the messages, and no call id occurs twice or among those seen before.
  ghost predicate Parses(blocks: seq<Block>, messages: seq<Message>, declared: set<string>, seen: set<string>) {
    && (forall i | 0 <= i < |blocks| :: BlockOk(blocks[i], declared))
    && Flatten(blocks) == messages
    && Distinct(Ids(blocks)) && Disjoint(Ids(blocks), seen)
  }

  ghost predicate IsTranscript(messages: seq<Message>, declared: set<string>) {
    1 <= |messages| <= MAX_MESSAGES && exists blocks :: Parses(blocks, messages, declared, {})
  }

  // ---------------------------------------------------------------- one pass

  function SetOf(ids: seq<string>): set<string> {
    set id | id in ids
  }

  predicate NewCalls(calls: seq<Call>, declared: set<string>, seen: set<string>) {
    && (forall i | 0 <= i < |calls| :: CallOk(calls[i], declared) && calls[i].id !in seen)
    && Distinct(CallIds(calls))
  }

  predicate CallerOk(m: Message, declared: set<string>, seen: set<string>)
    requires m.Assistant? && m.calls.Some?
  {
    && (m.text.Some? ==> Bounded(m.text.value))
    && 1 <= |m.calls.value| <= MAX_TOOL_CALLS
    && NewCalls(m.calls.value, declared, seen)
  }

  // What the pass decides from here on: `seen` ids of earlier calls, `pending` those still without a result.
  predicate Accepts(messages: seq<Message>, declared: set<string>, seen: set<string>, pending: seq<string>) {
    if messages == [] then pending == []
    else
      var m, rest := messages[0], messages[1..];
      if pending != [] then
        m.ToolResult? && m.callId == pending[0] && Bounded(m.content) && Accepts(rest, declared, seen, pending[1..])
      else if m.Assistant? && m.calls.Some? then
        var ids := CallIds(m.calls.value);
        CallerOk(m, declared, seen) && Accepts(rest, declared, seen + SetOf(ids), ids)
      else
        && (|| (m.System? && Bounded(m.content)) || (m.User? && Bounded(m.content))
            || (m.Assistant? && m.text.Some? && Bounded(m.text.value)))
        && Accepts(rest, declared, seen, [])
  }

  predicate Answers(messages: seq<Message>, pending: seq<string>) {
    |pending| <= |messages| &&
    forall i | 0 <= i < |pending| ::
      messages[i].ToolResult? && messages[i].callId == pending[i] && Bounded(messages[i].content)
  }

  // The results of the pending calls come first, contiguous and in order.
  lemma {:induction false} AcceptsPending(messages: seq<Message>, declared: set<string>, seen: set<string>,
                                          pending: seq<string>)
    ensures Accepts(messages, declared, seen, pending)
            <==> Answers(messages, pending) && Accepts(messages[|pending|..], declared, seen, [])
    decreases |messages|
  {
    if messages == [] {
    } else if pending == [] {
      assert messages[0..] == messages;
    } else {
      AcceptsPending(messages[1..], declared, seen, pending[1..]);
      if |pending| <= |messages| {
        assert messages[1..][|pending| - 1..] == messages[|pending|..];
      }
      if Answers(messages[1..], pending[1..]) && Answers(messages[..1], pending[..1]) {
        assert forall i | 1 <= i < |pending| ::
                 messages[i] == messages[1..][i - 1] && pending[i] == pending[1..][i - 1];
      }
    }
  }

  // ---------------------------------------------------------------- the pass = the grammar

  lemma DistinctAppend(a: seq<string>, b: seq<string>)
    ensures Distinct(a + b) <==> Distinct(a) && Distinct(b) && Disjoint(b, SetOf(a))
  {
    var ab := a + b;
    if Distinct(ab) {
      assert forall i | 0 <= i < |a| :: a[i] == ab[i];
      assert forall i | 0 <= i < |b| :: b[i] == ab[|a| + i];
    }
  }

  lemma PlainAccepts(m: Message, rest: seq<Message>, declared: set<string>, seen: set<string>)
    ensures PlainOk(m) ==> (Accepts([m] + rest, declared, seen, []) <==> Accepts(rest, declared, seen, []))
    ensures !PlainOk(m) && !(m.Assistant? && m.calls.Some?) ==> !Accepts([m] + rest, declared, seen, [])
  {
    assert ([m] + rest)[1..] == rest;
  }

  lemma CallsAccept(text: Option<string>, calls: seq<Call>, rest: seq<Message>, declared: set<string>,
                    seen: set<string>)
    ensures Accepts([Assistant(text, Some(calls))] + rest, declared, seen, [])
            <==> && (text.Some? ==> Bounded(text.value))
                 && 1 <= |calls| <= MAX_TOOL_CALLS && NewCalls(calls, declared, seen)
                 && Accepts(rest, declared, seen + SetOf(CallIds(calls)), CallIds(calls))
  {
    assert ([Assistant(text, Some(calls))] + rest)[1..] == rest;
  }

  lemma ResultsAnswer(answered: seq<Answered>, rest: seq<Message>)
    ensures var ids := CallIds(Calls(answered));
            && (Answers(Results(answered) + rest, ids) <==>
                  forall i | 0 <= i < |answered| :: Bounded(answered[i].result))
            && (Results(answered) + rest)[|ids|..] == rest
  {
    var ids, all := CallIds(Calls(answered)), Results(answered) + rest;
    forall i | 0 <= i < |answered| ensures all[i] == ToolResult(ids[i], answered[i].result) {
    }
  }

  lemma AnsweredNew(answered: seq<Answered>, declared: set<string>, seen: set<string>)
    ensures var ids := CallIds(Calls(answered));
            NewCalls(Calls(answered), declared, seen)
            <==> Distinct(ids) && Disjoint(ids, seen)
                 && forall i | 0 <= i < |answered| :: Callable(answered[i].call, declared)
  {
    hide CallOk, Callable;
    var calls := Calls(answered);
    var ids := CallIds(calls);
    forall i | 0 <= i < |answered|
      ensures calls[i] == answered[i].call && ids[i] == calls[i].id
      ensures CallOk(calls[i], declared) <==> Callable(answered[i].call, declared)
    {
      CallExactly(calls[i], declared);
    }
  }

  // An exchange is taken exactly when it is well formed and its ids are new.
  lemma ExchangeAccepts(block: Block, rest: seq<Message>, declared: set<string>, seen: set<string>)
    requires block.Exchange?
    ensures Accepts(Spell(block) + rest, declared, seen, [])
            <==> && BlockOk(block, declared) && Distinct(BlockIds(block)) && Disjoint(BlockIds(block), seen)
                 && Accepts(rest, declared, seen + SetOf(BlockIds(block)), [])
  {
    hide Accepts, NewCalls, Answers, Calls, CallIds, Results, Distinct, Disjoint, SetOf, CallOk, Callable, Bounded;
    var answered := block.answered;
    var ids, tail := BlockIds(block), Results(answered) + rest;
    assert Spell(block) + rest == [Assistant(block.text, Some(Calls(answered)))] + tail;
    CallsAccept(block.text, Calls(answered), tail, declared, seen);
    AnsweredNew(answered, declared, seen);
    AcceptsPending(tail, declared, seen + SetOf(ids), ids);
    ResultsAnswer(answered, rest);
  }

  lemma {:induction false} GrammarAccepted(blocks: seq<Block>, messages: seq<Message>, declared: set<string>,
                                           seen: set<string>)
    requires Parses(blocks, messages, declared, seen)
    ensures Accepts(messages, declared, seen, [])
    decreases |blocks|
  {
    hide Accepts, Spell, BlockOk, BlockIds;
    if blocks != [] {
      var first, rest := blocks[0], blocks[1..];
      var ids := BlockIds(first);
      DistinctAppend(ids, Ids(rest));
      assert forall i | 0 <= i < |ids| :: ids[i] == Ids(blocks)[i];
      assert forall i | 0 <= i < |Ids(rest)| :: Ids(rest)[i] == Ids(blocks)[|ids| + i];
      GrammarAccepted(rest, Flatten(rest), declared, seen + SetOf(ids));
      if first.Exchange? {
        ExchangeAccepts(first, Flatten(rest), declared, seen);
      } else {
        SpellPlain(first, declared);
        assert seen + SetOf(ids) == seen;
        PlainAccepts(first.message, Flatten(rest), declared, seen);
      }
    } else {
      assert messages == [] && Accepts([], declared, seen, []) by { AcceptsNothing(declared, seen); }
    }
  }

  lemma SpellPlain(block: Block, declared: set<string>)
    requires block.Plain?
    ensures Spell(block) == [block.message] && BlockIds(block) == []
    ensures BlockOk(block, declared) <==> PlainOk(block.message)
  {
  }

  lemma AcceptsNothing(declared: set<string>, seen: set<string>)
    ensures Accepts([], declared, seen, [])
  {
  }

  // An assistant message with calls and their results, in order, are an exchange.
  lemma ExchangeOf(text: Option<string>, calls: seq<Call>, results: seq<Message>) returns (block: Block)
    requires |results| == |calls|
    requires forall i | 0 <= i < |calls| :: results[i].ToolResult? && results[i].callId == calls[i].id
    ensures block.Exchange? && Spell(block) == [Assistant(text, Some(calls))] + results
  {
    block := Exchange(text, seq(|calls|, i requires 0 <= i < |calls| => Answered(calls[i], results[i].content)));
    assert Calls(block.answered) == calls;
    assert Results(block.answered) == results;
  }

  // The exchange an accepted transcript starts with.
  lemma FirstExchange(messages: seq<Message>, declared: set<string>, seen: set<string>)
    returns (block: Block, rest: seq<Message>)
    requires messages != [] && messages[0].Assistant? && messages[0].calls.Some?
    requires Accepts(messages, declared, seen, [])
    ensures block.Exchange? && messages == Spell(block) + rest
  {
    hide Accepts, NewCalls, Bounded, Spell;
    var calls := messages[0].calls.value;
    var ids := CallIds(calls);
    var tail := messages[1..];
    AcceptsStep(messages, 0, declared, seen, []);
    assert messages[0..] == messages;
    AcceptsPending(tail, declared, seen + SetOf(ids), ids);
    rest := tail[|ids|..];
    block := ExchangeOf(messages[0].text, calls, tail[..|ids|]);
    assert messages == [messages[0]] + (tail[..|ids|] + rest);
    assert Spell(block) + rest == [messages[0]] + (tail[..|ids|] + rest);
  }

  lemma {:induction false} AcceptedGrammar(messages: seq<Message>, declared: set<string>, seen: set<string>)
    returns (blocks: seq<Block>)
    requires Accepts(messages, declared, seen, [])
    ensures Parses(blocks, messages, declared, seen)
    decreases |messages|
  {
    hide Accepts, Spell;
    if messages == [] {
      blocks := [];
    } else {
      var block, rest;
      if messages[0].Assistant? && messages[0].calls.Some? {
        block, rest := FirstExchange(messages, declared, seen);
        ExchangeAccepts(block, rest, declared, seen);
      } else {
        block, rest := Plain(messages[0]), messages[1..];
        assert messages == [messages[0]] + rest;
        SpellPlain(block, declared);
        PlainAccepts(messages[0], rest, declared, seen);
      }
      var ids := BlockIds(block);
      assert block.Plain? ==> seen + SetOf(ids) == seen;
      var more := AcceptedGrammar(rest, declared, seen + SetOf(ids));
      blocks := [block] + more;
      assert blocks[1..] == more;
      DistinctAppend(ids, Ids(more));
      assert Ids(blocks) == ids + Ids(more);
    }
  }

  // The single pass accepts exactly the transcripts of the grammar.
  lemma AcceptsIffTranscript(messages: seq<Message>, declared: set<string>)
    ensures 1 <= |messages| <= MAX_MESSAGES && Accepts(messages, declared, {}, []) <==> IsTranscript(messages, declared)
  {
    hide Accepts, Parses;
    if Accepts(messages, declared, {}, []) {
      var blocks := AcceptedGrammar(messages, declared, {});
    }
    if IsTranscript(messages, declared) {
      var blocks :| Parses(blocks, messages, declared, {});
      GrammarAccepted(blocks, messages, declared, {});
    }
  }

  // ---------------------------------------------------------------- the pass as it runs

  // Checks the calls of one assistant message and adds their ids to those seen.
  method CheckCalls(calls: seq<Call>, declared: set<string>, before: set<string>) returns (r: Option<set<string>>)
    ensures r == if NewCalls(calls, declared, before) then Some(before + SetOf(CallIds(calls))) else None
  {
    var seen := before;
    var ids := CallIds(calls);
    for i := 0 to |calls|
      invariant seen == before + SetOf(ids[..i])
      invariant NewCalls(calls[..i], declared, before)
    {
      if !IsCallId(calls[i].id) || calls[i].id in seen || calls[i].name !in declared || calls[i].arguments.None? {
        NotNew(calls, i, declared, before);
        return None;
      }
      IdsSnoc(calls, i);
      seen := seen + {calls[i].id};
    }
    assert calls[..|calls|] == calls && ids[..|calls|] == ids;
    return Some(seen);
  }

  lemma IdsSnoc(calls: seq<Call>, i: nat)
    requires i < |calls|
    ensures CallIds(calls[..i]) == CallIds(calls)[..i]
    ensures CallIds(calls)[..i + 1] == CallIds(calls)[..i] + [calls[i].id]
    ensures SetOf(CallIds(calls)[..i + 1]) == SetOf(CallIds(calls)[..i]) + {calls[i].id}
  {
    var ids := CallIds(calls);
    assert forall id :: id in ids[..i + 1] <==> id in ids[..i] || id == calls[i].id;
  }

  lemma NotNew(calls: seq<Call>, i: nat, declared: set<string>, before: set<string>)
    requires i < |calls|
    requires !CallOk(calls[i], declared) || calls[i].id in before + SetOf(CallIds(calls)[..i])
    ensures !NewCalls(calls, declared, before)
  {
    if calls[i].id in SetOf(CallIds(calls)[..i]) {
      var j :| 0 <= j < i && CallIds(calls)[j] == calls[i].id;
    }
  }

  // Accepts or refuses a transcript; an accepted one is passed on unchanged. `size` is the length of
  // its encoding.
  method CheckMessages(messages: seq<Message>, declared: set<string>, size: seq<Message> -> nat)
    returns (r: Result<seq<Message>, PolicyError>)
    ensures r.Ok? <==> IsTranscript(messages, declared) && size(messages) <= MAX_PAYLOAD_BYTES
    ensures r.Ok? ==> r.value == messages
  {
    hide Accepts, IsTranscript, NewCalls, IsCallId, Bounded, SetOf;
    AcceptsIffTranscript(messages, declared);
    if !(1 <= |messages| <= MAX_MESSAGES) {
      return Err(PolicyError("messages are invalid"));
    }
    var result: seq<Message> := [];
    var seen: set<string> := {};
    var resolved: set<string> := {};
    var pending: seq<string> := [];
    assert messages[0..] == messages;
    TracksNothing();
    for i := 0 to |messages|
      invariant result == messages[..i]
      invariant Accepts(messages, declared, {}, []) == Accepts(messages[i..], declared, seen, pending)
      invariant Tracks(seen, resolved, pending)
    {
      var m := messages[i];
      AcceptsStep(messages, i, declared, seen, pending);
      if pending != [] && !m.ToolResult? {
        return Err(PolicyError("tool results must be contiguous and ordered"));
      }
      match m {
      case System(content) =>
        if !Bounded(content) {
          return Err(PolicyError("message content is invalid"));
        }
      case User(content) =>
        if !Bounded(content) {
          return Err(PolicyError("message content is invalid"));
        }
      case Assistant(text, calls) =>
        if calls.Some? && !(1 <= |calls.value| <= MAX_TOOL_CALLS) {
          return Err(PolicyError("assistant tool calls are invalid"));
        }
        if text.Some? && !Bounded(text.value) {
          return Err(PolicyError("assistant content is invalid"));
        }
        if text.None? && calls.None? {
          return Err(PolicyError("assistant content is invalid"));
        }
        if calls.Some? {
          var after := CheckCalls(calls.value, declared, seen);
          if after.None? {
            return Err(PolicyError("tool call is invalid"));
          }
          TracksCalls(calls.value, declared, seen, resolved);
          seen := after.value;
          pending := CallIds(calls.value);
        }
      case ToolResult(callId, content) =>
        TracksPending(seen, resolved, pending);
        if callId !in seen {
          return Err(PolicyError("tool result must reference a prior tool call"));
        }
        if pending == [] || callId != pending[0] {
          return Err(PolicyError("tool results must be contiguous and ordered"));
        }
        if callId in resolved {
          return Err(PolicyError("tool call result must be unique"));
        }
        resolved := resolved + {callId};
        pending := pending[1..];
        if !Bounded(content) {
          return Err(PolicyError("tool result content is invalid"));
        }
      case Malformed =>
        return Err(PolicyError("message fields are invalid"));
      }
      assert messages[..i + 1] == messages[..i] + [m];
      result := result + [m];
    }
    AcceptsEnd(messages, declared, seen, pending);
    TracksPending(seen, resolved, pending);
    if seen != resolved {
      return Err(PolicyError("every tool call must have exactly one result"));
    }
    assert result == messages;
    if size(result) > MAX_PAYLOAD_BYTES {
      return Err(PolicyError("message payload is too large"));
    }
    return Ok(result);
  }

  // Each seen call is either resolved or pending, and pending once.
  ghost predicate Tracks(seen: set<string>, resolved: set<string>, pending: seq<string>) {
    seen == resolved + SetOf(pending) && Disjoint(pending, resolved) && Distinct(pending)
  }

  lemma TracksNothing()
    ensures Tracks({}, {}, [])
  {
  }

  lemma TracksPending(seen: set<string>, resolved: set<string>, pending: seq<string>)
    requires Tracks(seen, resolved, pending)
    ensures pending == [] <==> seen == resolved
    ensures pending != [] ==>
      pending[0] in seen && pending[0] !in resolved && Tracks(seen, resolved + {pending[0]}, pending[1..])
  {
    if pending != [] {
      assert forall id :: id in pending <==> id == pending[0] || id in pending[1..];
      assert pending[0] in SetOf(pending);
    }
  }

  lemma TracksCalls(calls: seq<Call>, declared: set<string>, seen: set<string>, resolved: set<string>)
    requires Tracks(seen, resolved, []) && NewCalls(calls, declared, seen)
    ensures Tracks(seen + SetOf(CallIds(calls)), resolved, CallIds(calls))
  {
  }

  lemma AcceptsStep(messages: seq<Message>, i: nat, declared: set<string>, seen: set<string>, pending: seq<string>)
    requires i < |messages|
    ensures var m, rest := messages[i], messages[i + 1..];
            Accepts(messages[i..], declared, seen, pending)
            <==> if pending != [] then
                   m.ToolResult? && m.callId == pending[0] && Bounded(m.content)
                     && Accepts(rest, declared, seen, pending[1..])
                 else if m.Assistant? && m.calls.Some? then
                   CallerOk(m, declared, seen)
                   && Accepts(rest, declared, seen + SetOf(CallIds(m.calls.value)), CallIds(m.calls.value))
                 else
                   PlainOk(m) && Accepts(rest, declared, seen, [])
  {
    assert messages[i..][0] == messages[i] && messages[i..][1..] == messages[i + 1..];
  }

  lemma AcceptsEnd(messages: seq<Message>, declared: set<string>, seen: set<string>, pending: seq<string>)
    ensures Accepts(messages[|messages|..], declared, seen, pending) <==> pending == []
    ensures messages[..|messages|] == messages
  {
  }
}
