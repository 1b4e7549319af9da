// The normalizer as it runs: loops over offsets and token positions. Each method is proved to
// compute the function of SqlLexer or SqlRewrite that the results above are about.
module SqlDefinitions {
  import opened Wrappers
  import opened SqlLexer
  import opened SqlArrays
  import opened SqlRewrite
  import opened SqlNormalizer

  // Where token `i` ends in the text; the next one's white space starts there.
  function EndOf(ts: seq<Lexeme>, i: nat): nat
    requires i <= |ts|
  {
    |Render(ts[..i], "")|
  }

  function Place(ts: seq<Lexeme>, i: nat): SqlToken
    requires i < |ts|
  {
    SqlToken(ts[i].kind, Value(ts[i]), EndOf(ts, i) + |ts[i].lead|, EndOf(ts, i + 1))
  }

  // The tokens of the source for these lexemes.
  function Places(ts: seq<Lexeme>): (r: seq<SqlToken>)
    ensures |r| == |ts|
  {
    seq(|ts|, i requires 0 <= i < |ts| => Place(ts, i))
  }

  lemma PlacesAppend(ts: seq<Lexeme>, t: Lexeme)
    ensures Places(ts + [t])
            == Places(ts) + [SqlToken(t.kind, Value(t), |Render(ts, "")| + |t.lead|, |Render(ts + [t], "")|)]
  {
    hide Value, Render;
    var all := ts + [t];
    forall i | 0 <= i < |ts| ensures Place(all, i) == Place(ts, i) {
      assert all[..i] == ts[..i] && all[..i + 1] == ts[..i + 1];
    }
    assert all[..|ts|] == ts && all[..|ts| + 1] == all;
  }

  lemma RenderSnoc(ts: seq<Lexeme>, t: Lexeme)
    ensures Render(ts + [t], "") == Render(ts, "") + t.lead + t.text
  {
    RenderAppend(ts, [t], "");
    RenderTrail(ts, Render([t], ""));
    assert Render([t], "") == t.lead + t.text + "";
  }

  lemma PrependTwice(a: seq<Lexeme>, b: seq<Lexeme>, rest: Lexed)
    ensures Prepend(a, Prepend(b, rest)) == Prepend(a + b, rest)
  {
    if rest.Some? {
      assert a + (b + rest.value.0) == a + b + rest.value.0;
    }
  }

  // The invariant of the tokenizer at `offset`: tokens `done`, then the white space `lead`.
  ghost predicate Scanned(definition: string, offset: nat, done: seq<Lexeme>, lead: string) {
    && offset <= |definition|
    && Lex(definition) == Prepend(done, LexFrom(lead, definition[offset..]))
    && Render(done, "") + lead == definition[..offset]
  }

  lemma ScannedSpace(definition: string, offset: nat, done: seq<Lexeme>, lead: string)
    requires Scanned(definition, offset, done, lead) && offset < |definition| && IsSpace(definition[offset])
    ensures Scanned(definition, offset + 1, done, lead + [definition[offset]])
  {
    assert definition[offset..][1..] == definition[offset + 1..];
    assert Render(done, "") + (lead + [definition[offset]]) == definition[..offset] + [definition[offset]];
  }

  lemma ScannedToken(definition: string, offset: nat, done: seq<Lexeme>, lead: string, kind: Kind, n: nat)
    requires Scanned(definition, offset, done, lead) && offset < |definition| && !IsSpace(definition[offset])
    requires LexOne(definition[offset..]) == Some((kind, n))
    ensures offset + n <= |definition|
    ensures Scanned(definition, offset + n, done + [Lexeme(lead, kind, definition[offset..offset + n])], "")
    ensures Places(done + [Lexeme(lead, kind, definition[offset..offset + n])])
            == Places(done)
              + [SqlToken(kind, Value(Lexeme(lead, kind, definition[offset..offset + n])), offset, offset + n)]
  {
    hide LexOne, Value;
    var t := Lexeme(lead, kind, definition[offset..offset + n]);
    assert definition[offset..][..n] == t.text && definition[offset..][n..] == definition[offset + n..];
    PrependTwice(done, [t], LexFrom("", definition[offset + n..]));
    RenderSnoc(done, t);
    assert Render(done, "") + lead + t.text == definition[..offset + n];
    assert Render(done + [t], "") + "" == Render(done + [t], "");
    PlacesAppend(done, t);
    assert |Render(done, "")| + |lead| == offset;
  }

  lemma ScannedRefused(definition: string, offset: nat, done: seq<Lexeme>, lead: string)
    requires Scanned(definition, offset, done, lead) && offset < |definition| && !IsSpace(definition[offset])
    requires LexOne(definition[offset..]).None?
    ensures Lex(definition).None?
  {
  }

  // The end of a quoted token, or None.
  method QuotedEnd(definition: string, start: nat) returns (end: Option<nat>)
    requires start < |definition|
    ensures match QuoteEnd(definition[start..], 1, definition[start])
            case None => end == None
            case Some(n) => end == Some(start + n)
  {
    var quote := definition[start];
    ghost var s := definition[start..];
    var offset := start + 1;
    while offset < |definition|
      invariant start < offset <= |definition|
      invariant QuoteEnd(s, offset - start, quote) == QuoteEnd(s, 1, quote)
    {
      if definition[offset] == '\\' {
        return None;
      }
      if definition[offset] == quote {
        offset := offset + 1;
        if offset < |definition| && definition[offset] == quote {
          offset := offset + 1;
          continue;
        }
        return Some(offset);
      }
      offset := offset + 1;
    }
    return None;
  }

  method WordLength(definition: string, start: nat) returns (end: nat)
    requires start < |definition|
    ensures end == start + WordEnd(definition[start..], 1)
  {
    ghost var s := definition[start..];
    end := start + 1;
    while end < |definition| && IsWordChar(definition[end])
      invariant start < end <= |definition|
      invariant WordEnd(s, end - start) == WordEnd(s, 1)
    {
      end := end + 1;
    }
  }

  // The tokens of a definition, or None where quoting or comments are not supported.
  method SqlTokens(definition: string) returns (r: Option<seq<SqlToken>>)
    ensures match Lex(definition)
            case None => r == None
            case Some((ts, _)) => r == Some(Places(ts))
  {
    hide Lex, LexFrom, Render, Places, QuoteEnd, WordEnd, Two, Lower, Scanned, IsSpace;
    var tokens: seq<SqlToken> := [];
    var offset := 0;
    ghost var done: seq<Lexeme> := [];
    ghost var lead := "";
    ScannedStart(definition);
    while offset < |definition|
      invariant offset <= |definition| && Scanned(definition, offset, done, lead)
      invariant tokens == Places(done)
      decreases |definition| - offset
    {
      var start := offset;
      var c := definition[offset];
      ghost var s := definition[start..];
      assert s[0] == c;
      if IsSpace(c) {
        ScannedSpace(definition, offset, done, lead);
        offset, lead := offset + 1, lead + [c];
        continue;
      }
      var kind;
      if c == '\'' || c == '"' {
        var end := QuotedEnd(definition, start);
        if end.None? {
          ScannedRefused(definition, start, done, lead);
          return None;
        }
        kind, offset := if c == '\'' then Literal else Quoted, end.value;
      } else if c == '$' || c == '\\' || Two(definition, offset) == "--" || Two(definition, offset) == "/*" {
        TwoIsPrefix(definition, start);
        ScannedRefused(definition, start, done, lead);
        return None;
      } else if (c == 'e' || c == 'E') && Lower(Two(definition, offset)) == "e'" {
        QuoteAfterE(definition, start);
        ScannedRefused(definition, start, done, lead);
        return None;
      } else if IsWordStart(c) {
        TwoIsPrefix(definition, start);
        QuoteAfterE(definition, start);
        kind := Word;
        offset := WordLength(definition, start);
      } else {
        TwoIsPrefix(definition, start);
        kind := Symbol;
        offset := offset + if Two(definition, offset) == "::" then 2 else 1;
      }
      assert LexOne(s) == Some((kind, offset - start));
      ScannedToken(definition, start, done, lead, kind, offset - start);
      var text := definition[start..offset];
      tokens := tokens + [SqlToken(kind, if kind == Word then Lower(text) else text, start, offset)];
      done, lead := done + [Lexeme(lead, kind, text)], "";
    }
    ScannedEnd(definition, done, lead);
    return Some(tokens);
  }

  function Two(s: string, i: nat): string
    requires i < |s|
  {
    if i + 2 <= |s| then s[i..i + 2] else s[i..]
  }

  lemma TwoIsPrefix(s: string, i: nat)
    requires i < |s|
    ensures StartsWith(s[i..], "--") <==> Two(s, i) == "--"
    ensures StartsWith(s[i..], "/*") <==> Two(s, i) == "/*"
    ensures StartsWith(s[i..], "::") <==> Two(s, i) == "::"
  {
    if i + 2 <= |s| {
      assert s[i..][..2] == s[i..i + 2];
    }
  }

  lemma QuoteAfterE(s: string, i: nat)
    requires i < |s|
    ensures s[i] in {'e', 'E'} ==> (Lower(Two(s, i)) == "e'" <==> i + 1 < |s| && s[i + 1] == '\'')
  {
    var t := Lower(Two(s, i));
    if i + 1 < |s| && s[i] in {'e', 'E'} {
      assert t[0] == 'e' && t[1] == LowerChar(s[i + 1]);
      assert |t| == 2;
      if s[i + 1] == '\'' {
        assert t == ['e', '\''];
      }
    }
  }

  lemma ScannedStart(definition: string)
    ensures Scanned(definition, 0, [], "") && Places([]) == []
  {
    assert definition[0..] == definition;
    PrependTwice([], [], Lex(definition));
    if Lex(definition).Some? {
      assert [] + Lex(definition).value.0 == Lex(definition).value.0;
    }
  }

  lemma ScannedEnd(definition: string, done: seq<Lexeme>, lead: string)
    requires Scanned(definition, |definition|, done, lead)
    ensures Lex(definition) == Some((done, lead))
  {
    assert definition[|definition|..] == "" && done + [] == done;
  }

  // ---------------------------------------------------------------- recogniser

  // A token whose text fits its kind, as all scanned ones do.
  predicate WellKinded(t: Lexeme) {
    && t.text != ""
    && (t.kind == Word <==> IsWordStart(t.text[0]))
    && (t.kind in {Literal, Quoted} <==> t.text[0] in {'\'', '"'})
  }

  lemma StartsKind(t: Lexeme, r: string)
    requires Starts(t, r)
    ensures WellKinded(t)
  {
    assert (t.text + r)[0] == t.text[0];
  }

  // The value of such a token alone tells which fixed symbol it is.
  lemma KindedSym(t: Lexeme)
    requires WellKinded(t)
    ensures Value(t) == "(" <==> SymOf(t) == LParen
    ensures Value(t) == ")" <==> SymOf(t) == RParen
    ensures Value(t) == "[" <==> SymOf(t) == LBracket
    ensures Value(t) == "]" <==> SymOf(t) == RBracket
    ensures Value(t) == "," <==> SymOf(t) == Comma
    ensures Value(t) == "::" <==> SymOf(t) == Cast
    ensures t.kind in {Literal, Quoted} ==> SymOf(t) == if t.kind == Literal then Lit(t.text) else Other
  {
    assert Value(t) != "" && (t.kind != Word ==> Value(t)[0] == t.text[0]);
    assert t.kind == Word ==> Value(t)[0] == LowerChar(t.text[0]);
  }

  lemma KindedWord(t: Lexeme)
    requires WellKinded(t)
    ensures Value(t) == "array" <==> SymOf(t) == ArrayWord
    ensures Value(t) == "character" <==> SymOf(t) == Character
    ensures Value(t) == "varying" <==> SymOf(t) == Varying
    ensures Value(t) == "text" <==> SymOf(t) == TextWord
    ensures SymOf(t) in {ArrayWord, Character, Varying, TextWord} ==> t.kind == Word
  {
    assert Value(t) != "" && (t.kind != Word ==> Value(t)[0] == t.text[0]);
  }

  ghost predicate Tokens(tokens: seq<SqlToken>, ts: seq<Lexeme>) {
    tokens == Places(ts) && forall i | 0 <= i < |ts| :: WellKinded(ts[i])
  }

  // Whether the token at `position` is this one and not quoted text.
  predicate Takes(tokens: seq<SqlToken>, position: nat, value: string) {
    && position < |tokens|
    && tokens[position].kind != Literal && tokens[position].kind != Quoted
    && tokens[position].value == value
  }

  lemma TakesAt(tokens: seq<SqlToken>, ts: seq<Lexeme>)
    requires Tokens(tokens, ts)
    ensures forall i: nat :: Takes(tokens, i, "array") <==> At(Syms(ts), i, ArrayWord)
    ensures forall i: nat :: Takes(tokens, i, "(") <==> At(Syms(ts), i, LParen)
    ensures forall i: nat :: Takes(tokens, i, ")") <==> At(Syms(ts), i, RParen)
    ensures forall i: nat :: Takes(tokens, i, "[") <==> At(Syms(ts), i, LBracket)
    ensures forall i: nat :: Takes(tokens, i, "]") <==> At(Syms(ts), i, RBracket)
    ensures forall i: nat :: Takes(tokens, i, ",") <==> At(Syms(ts), i, Comma)
    ensures forall i: nat :: Takes(tokens, i, "::") <==> At(Syms(ts), i, Cast)
    ensures forall i: nat :: Takes(tokens, i, "character") <==> At(Syms(ts), i, Character)
    ensures forall i: nat :: Takes(tokens, i, "varying") <==> At(Syms(ts), i, Varying)
    ensures forall i: nat :: Takes(tokens, i, "text") <==> At(Syms(ts), i, TextWord)
  {
    hide Render, Value, SymOf, WellKinded;
    forall i: nat | i < |ts|
      ensures tokens[i] == Place(ts, i)
      ensures WellKinded(ts[i])
    {
    }
    forall i: nat | i < |ts| {
      KindedSym(ts[i]);
    }
    forall i: nat | i < |ts| {
      KindedWord(ts[i]);
    }
  }

  // Outside words and quoted text the value alone decides.
  lemma ValueAt(tokens: seq<SqlToken>, ts: seq<Lexeme>, i: nat)
    requires Tokens(tokens, ts) && i < |tokens|
    ensures tokens[i].value == "::" <==> SymOf(ts[i]) == Cast
    ensures tokens[i].value == "(" <==> SymOf(ts[i]) == LParen
    ensures tokens[i].value == "[" <==> SymOf(ts[i]) == LBracket
    ensures tokens[i].value == "]" <==> SymOf(ts[i]) == RBracket
    ensures tokens[i].kind == Word && tokens[i].value == "array" <==> SymOf(ts[i]) == ArrayWord
  {
    hide Render, Value, SymOf, WellKinded;
    assert tokens[i] == Place(ts, i);
    KindedSym(ts[i]);
    KindedWord(ts[i]);
  }

  lemma AtDrop(ss: seq<Sym>, k: nat)
    requires k <= |ss|
    ensures forall i: nat, s :: At(ss[k..], i, s) == At(ss, k + i, s)
  {
  }

  // One element of the array from `position`: where it ends, its literal, whether it is cast to text.
  method ParseElement(tokens: seq<SqlToken>, position: nat, ghost ts: seq<Lexeme>)
    returns (r: Option<(nat, string, bool)>)
    requires Tokens(tokens, ts) && position <= |tokens|
    ensures match Element(Syms(ts)[position..])
            case None => r == None
            case Some((n, e)) => r == Some((position + n, e.lit, e.coerced))
  {
    hide Places, SymOf, WellKinded, Value, Takes;
    ghost var ss := Syms(ts);
    ghost var rest := ss[position..];
    TakesAt(tokens, ts);
    AtDrop(ss, position);
    var next := position;
    var wrapped := Takes(tokens, next, "(");
    if wrapped {
      next := next + 1;
    }
    if next < |tokens| {
      LiteralAt(tokens, ts, next);
    }
    if next >= |tokens| || tokens[next].kind != Literal {
      return None;
    }
    ghost var p := next - position;
    assert rest[p] == Lit(tokens[next].value);
    var literal := tokens[next].value;
    next := next + 1;
    if !Takes(tokens, next, "::") || !Takes(tokens, next + 1, "character") || !Takes(tokens, next + 2, "varying") {
      return None;
    }
    next := next + 3;
    if wrapped {
      if !Takes(tokens, next, ")") {
        return None;
      }
      next := next + 1;
    }
    var coerced := Takes(tokens, next, "::");
    if coerced {
      if !Takes(tokens, next + 1, "text") {
        return None;
      }
      next := next + 2;
    }
    return Some((next, literal, coerced));
  }

  lemma LiteralAt(tokens: seq<SqlToken>, ts: seq<Lexeme>, i: nat)
    requires Tokens(tokens, ts) && i < |tokens|
    ensures tokens[i].kind == Literal <==> SymOf(ts[i]).Lit?
    ensures tokens[i].kind == Literal ==> SymOf(ts[i]) == Lit(tokens[i].value)
  {
    assert tokens[i] == Place(ts, i);
    LiteralSym(ts[i]);
  }

  function Joined(lits: seq<string>): string
    requires lits != []
  {
    lits[0] + "::character varying::text" + if |lits| == 1 then "" else "," + Joined(lits[1..])
  }

  // The canonical form as text.
  function CanonText(lits: seq<string>): string
    requires lits != []
  {
    "ARRAY[" + Joined(lits) + "]"
  }

  // The literals and casts the loop has collected for these elements.
  ghost predicate Collected(literals: seq<string>, coerced: seq<bool>, es: seq<Elem>) {
    literals == Lits(es) && |coerced| == |es| && forall i | 0 <= i < |es| :: coerced[i] == es[i].coerced
  }

  lemma CollectedSnoc(literals: seq<string>, coerced: seq<bool>, es: seq<Elem>, e: Elem)
    requires Collected(literals, coerced, es)
    ensures Collected(literals + [e.lit], coerced + [e.coerced], es + [e])
  {
    LitsLength(es);
    LitsLength(es + [e]);
  }

  // What remains to parse, seen from where the elements start.
  function Resume(done: seq<Elem>, n: nat, rest: Option<(nat, seq<Elem>)>): Option<(nat, seq<Elem>)> {
    match rest
    case None => None
    case Some((m, es)) => Some((n + m, done + es))
  }

  lemma ResumeStep(ss: seq<Sym>, base: nat, position: nat, done: seq<Elem>, n: nat, e: Elem)
    requires base <= position <= |ss|
    requires Elements(ss[base..]) == Resume(done, position - base, Elements(ss[position..]))
    requires Element(ss[position..]) == Some((n, e))
    ensures At(ss, position + n, RBracket) ==> Elements(ss[base..]) == Some((position + n + 1 - base, done + [e]))
    ensures !At(ss, position + n, RBracket) && !At(ss, position + n, Comma) ==> Elements(ss[base..]).None?
    ensures !At(ss, position + n, RBracket) && At(ss, position + n, Comma) ==>
              Elements(ss[base..]) == Resume(done + [e], position + n + 1 - base, Elements(ss[position + n + 1..]))
  {
    hide Element;
    var rest := ss[position..];
    assert forall s :: At(rest, n, s) == At(ss, position + n, s);
    assert position + n < |ss| ==> rest[n + 1..] == ss[position + n + 1..];
    if At(ss, position + n, Comma) && Elements(ss[position + n + 1..]).Some? {
      var es := Elements(ss[position + n + 1..]).value.1;
      assert done + ([e] + es) == done + [e] + es;
    }
  }

  // The elements from `base`, up to and including the closing bracket.
  method ParseElements(tokens: seq<SqlToken>, base: nat, ghost ts: seq<Lexeme>)
    returns (r: Option<(nat, seq<string>, seq<bool>)>)
    requires Tokens(tokens, ts) && base <= |tokens|
    ensures match Elements(Syms(ts)[base..])
            case None => r == None
            case Some((n, es)) => r.Some? && r.value.0 == base + n && Collected(r.value.1, r.value.2, es)
  {
    hide Places, SymOf, WellKinded, Value, Takes, Elements, Element, Collected;
    ghost var ss := Syms(ts);
    TakesAt(tokens, ts);
    var position := base;
    var literals: seq<string> := [];
    var coerced: seq<bool> := [];
    ghost var done: seq<Elem> := [];
    ResumeNothing(Elements(ss[base..]));
    assert Collected([], [], []) by { CollectedNone(); }
    while true
      invariant base <= position <= |tokens|
      invariant Elements(ss[base..]) == Resume(done, position - base, Elements(ss[position..]))
      invariant Collected(literals, coerced, done)
      decreases |tokens| - position
    {
      var element := ParseElement(tokens, position, ts);
      if element.None? {
        NoElement(ss[position..]);
        return None;
      }
      var (next, literal, cast) := element.value;
      ghost var e := Element(ss[position..]).value.1;
      ResumeStep(ss, base, position, done, next - position, e);
      CollectedSnoc(literals, coerced, done, e);
      literals := literals + [literal];
      coerced := coerced + [cast];
      done := done + [e];
      position := next;
      if Takes(tokens, position, "]") {
        return Some((position + 1, literals, coerced));
      }
      if !Takes(tokens, position, ",") {
        return None;
      }
      position := position + 1;
    }
  }

  lemma CollectedNone()
    ensures Collected([], [], [])
  {
  }

  // Recognises an array of literals from `start`: where it ends and its canonical text.
  method LiteralTextArray(tokens: seq<SqlToken>, start: nat, ghost ts: seq<Lexeme>)
    returns (r: Option<(nat, string)>)
    requires Tokens(tokens, ts) && start < |tokens|
    ensures match MatchShape(Syms(ts)[start..])
            case None => r == None
            case Some((n, shape)) =>
              Lits(shape.elems) != [] && r == Some((start + n, CanonText(Lits(shape.elems))))
  {
    hide Places, SymOf, WellKinded, Value, Takes, Elements, MatchShape, Joined, Closing, Opening, Lits;
    ghost var ss := Syms(ts);
    TakesAt(tokens, ts);
    var position := start;
    var wrapped := Takes(tokens, position, "(");
    if wrapped {
      position := position + 1;
    }
    MatchOpening(ss, start, wrapped);
    if !Takes(tokens, position, "array") || !Takes(tokens, position + 1, "[") {
      return None;
    }
    position := position + 2;
    var elements := ParseElements(tokens, position, ts);
    if elements.None? {
      return None;
    }
    ghost var es := Elements(ss[position..]).value.1;
    LitsLength(es);
    MatchClosing(ss, start, wrapped, position, elements.value.0, es);
    var (next, literals, coerced) := elements.value;
    var end := ParseClosing(tokens, next, wrapped, literals, coerced, es, ts);
    if end.None? {
      return None;
    }
    return Some((end.value, CanonText(literals)));
  }

  // Where the array ends, after its closing bracket.
  method ParseClosing(tokens: seq<SqlToken>, start: nat, wrapped: bool, ghost literals: seq<string>, coerced: seq<bool>,
                      ghost es: seq<Elem>, ghost ts: seq<Lexeme>) returns (r: Option<nat>)
    requires Tokens(tokens, ts) && start <= |tokens| && Collected(literals, coerced, es)
    ensures match Closing(wrapped, es, Syms(ts)[start..])
            case None => r == None
            case Some(n) => r == Some(start + n)
  {
    hide Places, SymOf, WellKinded, Value, Takes, Lits;
    TakesAt(tokens, ts);
    AtDrop(Syms(ts), start);
    var position := start;
    if wrapped {
      if !Takes(tokens, position, ")") {
        return None;
      }
      position := position + 1;
    }
    if forall i | 0 <= i < |coerced| :: !coerced[i] {
      if !Takes(tokens, position, "::") || !Takes(tokens, position + 1, "text")
         || !Takes(tokens, position + 2, "[") || !Takes(tokens, position + 3, "]") {
        return None;
      }
      position := position + 4;
    } else if !(forall i | 0 <= i < |coerced| :: coerced[i]) || wrapped {
      return None;
    } else if position < |tokens| {
      ValueAt(tokens, ts, position);
      if tokens[position].value == "::" {
        return None;
      }
    }
    return Some(position);
  }

  lemma ResumeNothing(rest: Option<(nat, seq<Elem>)>)
    ensures Resume([], 0, rest) == rest
  {
    if rest.Some? {
      assert [] + rest.value.1 == rest.value.1;
    }
  }

  lemma NoElement(ss: seq<Sym>)
    requires Element(ss).None?
    ensures Elements(ss).None?
  {
  }

  lemma MatchOpening(ss: seq<Sym>, start: nat, wrapped: bool)
    requires start < |ss| && wrapped == At(ss, start, LParen)
    ensures |Opening(wrapped)| == if wrapped then 3 else 2
    ensures var p := if wrapped then start + 1 else start;
            && (At(ss, p, ArrayWord) && At(ss, p + 1, LBracket) <==> Opening(wrapped) <= ss[start..])
            && (!(Opening(wrapped) <= ss[start..]) ==> MatchShape(ss[start..]).None?)
            && (Opening(wrapped) <= ss[start..] && Elements(ss[p + 2..]).None? ==> MatchShape(ss[start..]).None?)
  {
    hide Elements;
    AtDrop(ss, start);
    if Opening(wrapped) <= ss[start..] {
      assert ss[start..][|Opening(wrapped)|..] == ss[start + |Opening(wrapped)|..];
    }
  }

  lemma MatchClosing(ss: seq<Sym>, start: nat, wrapped: bool, base: nat, position: nat, es: seq<Elem>)
    requires start < |ss| && wrapped == At(ss, start, LParen) && Opening(wrapped) <= ss[start..]
    requires base == start + |Opening(wrapped)| && base <= position <= |ss|
    requires Elements(ss[base..]) == Some((position - base, es))
    ensures MatchShape(ss[start..])
            == match Closing(wrapped, es, ss[position..])
               case None => None
               case Some(m) => Some((position - start + m, Shape(wrapped, es)))
    ensures forall i: nat, s :: At(ss[position..], i, s) == At(ss, position + i, s)
  {
    hide Elements, Closing;
    assert At(ss[start..], 0, LParen) == wrapped;
    assert ss[start..][|Opening(wrapped)|..] == ss[base..];
    assert ss[base..][position - base..] == ss[position..];
  }

  // ---------------------------------------------------------------- the whole text

  function Concat(pieces: seq<string>): string {
    if pieces == [] then "" else pieces[0] + Concat(pieces[1..])
  }

  lemma {:induction false} ConcatSnoc(pieces: seq<string>, a: string, b: string)
    ensures Concat(pieces + [a, b]) == Concat(pieces) + a + b
    ensures Concat(pieces + [a]) == Concat(pieces) + a
  {
    if pieces == [] {
      assert [a, b][1..] == [b] && [b][1..] == [] && [a][1..] == [];
      assert pieces + [a, b] == [a, b] && pieces + [a] == [a];
      assert Concat([b]) == b + "" == b;
    } else {
      assert (pieces + [a, b])[1..] == pieces[1..] + [a, b];
      assert (pieces + [a])[1..] == pieces[1..] + [a];
      ConcatSnoc(pieces[1..], a, b);
    }
  }

  lemma SymbolRender(text: string, more: seq<Lexeme>, following: string)
    ensures Render([Lexeme("", Symbol, text)] + more, following) == text + Render(more, following)
    ensures Render([Lexeme("", Symbol, text)], following) == text + following
  {
    var symbol := Lexeme("", Symbol, text);
    RenderCons(symbol, more, following);
    RenderCons(symbol, [], following);
    assert [symbol] + [] == [symbol];
    assert "" + text == text;
  }

  lemma ElemRender(lit: string, more: seq<Lexeme>, following: string)
    ensures Render(CanonElem(lit) + more, following) == lit + "::character varying::text" + Render(more, following)
  {
    hide Render, CanonElem;
    CanonElemRender(lit, Render(more, following));
    RenderAppend(CanonElem(lit), more, following);
  }

  lemma JoinedMore(first: string, rest: string, end: string, following: string)
    ensures first + ("," + (rest + end + following)) == first + ("," + rest) + end + following
  {
    assert "," + (rest + end + following) == ("," + rest) + (end + following);
  }

  lemma {:induction false} JoinedRender(lits: seq<string>, following: string)
    requires lits != []
    ensures Render(CanonElems(lits), following) == Joined(lits) + "]" + following
  {
    hide Render, CanonElem;
    var elem := lits[0] + "::character varying::text";
    if |lits| == 1 {
      SymbolRender("]", [], following);
      ElemRender(lits[0], [Lexeme("", Symbol, "]")], following);
      assert elem + "" == elem;
    } else {
      var more := CanonElems(lits[1..]);
      JoinedRender(lits[1..], following);
      SymbolRender(",", more, following);
      ElemRender(lits[0], [Lexeme("", Symbol, ",")] + more, following);
      JoinedMore(elem, Joined(lits[1..]), "]", following);
    }
  }

  lemma CastText()
    ensures "" + "text" + "" == "text"
    ensures "" + "::" + "text" == "::text"
    ensures " " + "varying" + "::text" == " varying::text"
    ensures "" + "character" + " varying::text" == "character varying::text"
    ensures "" + "::" + "character varying::text" == "::character varying::text"
  {
  }

  // Renders one more token before a text.
  lemma RenderRight(ts: seq<Lexeme>, rest: seq<Lexeme>, text: string, more: string, following: string)
    requires ts != [] && ts[1..] == rest
    requires Render(rest, following) == text + following
    requires more == ts[0].lead + ts[0].text + text
    ensures Render(ts, following) == more + following
  {
    hide Render;
    RenderUncons(ts, following);
    Grouped(ts[0].lead + ts[0].text, text, following);
  }

  lemma RenderUncons(ts: seq<Lexeme>, following: string)
    requires ts != []
    ensures Render(ts, following) == ts[0].lead + ts[0].text + Render(ts[1..], following)
  {
  }

  lemma Grouped(a: string, b: string, c: string)
    ensures a + (b + c) == a + b + c
  {
  }

  lemma CanonElemRender(lit: string, following: string)
    ensures Render(CanonElem(lit), following) == lit + "::character varying::text" + following
  {
    hide Render;
    var e := CanonElem(lit);
    CastText();
    RenderNone(following);
    RenderRight(e[5..], [], "", "text", following);
    RenderRight(e[4..], e[5..], "text", "::text", following);
    RenderRight(e[3..], e[4..], "::text", " varying::text", following);
    RenderRight(e[2..], e[3..], " varying::text", "character varying::text", following);
    RenderRight(e[1..], e[2..], "character varying::text", "::character varying::text", following);
    assert "" + lit == lit;
    RenderRight(e, e[1..], "::character varying::text", lit + "::character varying::text", following);
  }

  lemma RenderNone(following: string)
    ensures Render([], following) == "" + following
  {
  }

  lemma CanonTextRender(lead: string, lits: seq<string>, ts: seq<Lexeme>, trail: string)
    requires lits != []
    ensures Render(Canonical(lead, lits) + ts, trail) == lead + CanonText(lits) + Render(ts, trail)
  {
    hide Joined, CanonElems;
    var following := Render(ts, trail);
    var word, open := Lexeme(lead, Word, "ARRAY"), Lexeme("", Symbol, "[");
    RenderAppend(Canonical(lead, lits), ts, trail);
    assert Canonical(lead, lits) == [word] + ([open] + CanonElems(lits));
    RenderCons(word, [open] + CanonElems(lits), following);
    RenderCons(open, CanonElems(lits), following);
    JoinedRender(lits, following);
  }

  // Whether a '(' at token `i` may belong to an array cast.
  predicate MayWrap(ts: seq<Lexeme>, i: nat)
    requires i <= |ts|
  {
    i == 0 || CanWrap(ts[i - 1])
  }

  // The normal form of the rest of the text, from token `i`.
  function RestOf(ts: seq<Lexeme>, trail: string, i: nat): string
    requires i <= |ts|
  {
    Render(Rewrite(MayWrap(ts, i), ts[i..]), trail)
  }

  lemma BracketEndsWrap(t: Lexeme)
    requires SymOf(t) == RBracket
    ensures !CanWrap(t)
  {
  }

  lemma {:induction false} SkipEnds(ss: seq<Sym>, depth: int)
    requires 0 < Skip(ss, depth) < |ss|
    requires depth >= 0 && (depth == 0 ==> At(ss, 0, LBracket))
    ensures ss[Skip(ss, depth) - 1] == RBracket
  {
    if Depth(depth, ss[0]) != 0 {
      SkipEnds(ss[1..], Depth(depth, ss[0]));
    }
  }

  // After what the rewriting consumed, the token before decides as the rewriting does.
  lemma WrapAfter(ts: seq<Lexeme>, i: nat)
    requires i < |ts|
    ensures var ok, rest := MayWrap(ts, i), ts[i..];
            && (MatchAt(ok, rest).Some? ==> !MayWrap(ts, i + MatchAt(ok, rest).value.0))
            && (MatchAt(ok, rest).None? ==>
                  var k := Copied(rest);
                  i + k == |ts| || MayWrap(ts, i + k) == (k == 1 && CanWrap(ts[i])))
  {
    hide SymOf, CanWrap, MatchShape, Skip, SpellElems;
    var ok, rest := MayWrap(ts, i), ts[i..];
    if MatchAt(ok, rest).Some? {
      var (n, shape) := MatchAt(ok, rest).value;
      MatchSound(Syms(rest));
      MatchedEnds(shape);
      assert Syms(rest)[n - 1] == Spell(shape)[n - 1] == RBracket;
      assert SymOf(ts[i + n - 1]) == SymOf(rest[n - 1]) == RBracket;
      BracketEndsWrap(ts[i + n - 1]);
    } else {
      var k := Copied(rest);
      var ss := Syms(rest);
      if k > 1 && i + k < |ts| {
        SkipEnds(ss[1..], 0);
        assert ss[k - 1] == ss[1..][k - 2] == RBracket;
        assert SymOf(ts[i + k - 1]) == ss[k - 1];
        BracketEndsWrap(ts[i + k - 1]);
      }
    }
  }

  lemma MatchedEnds(shape: Shape)
    requires shape.elems != []
    ensures Valid(shape) ==> Spell(shape)[|Spell(shape)| - 1] == RBracket
  {
    SpellElemsBrackets(shape.elems);
    if Valid(shape) && !AnyCoerced(shape.elems) {
      assert Ending(shape)[|Ending(shape)| - 1] == RBracket;
    }
  }

  lemma RestRender(definition: string, ts: seq<Lexeme>, trail: string, i: nat, k: nat)
    requires definition == Render(ts, trail) && i + k <= |ts|
    ensures EndOf(ts, i) <= EndOf(ts, i + k) <= |definition|
    ensures definition[EndOf(ts, i)..EndOf(ts, i + k)] == Render(ts[i..i + k], "")
  {
    hide Render;
    assert ts == ts[..i + k] + ts[i + k..] && ts[..i + k] == ts[..i] + ts[i..i + k];
    RenderAppend(ts[..i + k], ts[i + k..], trail);
    RenderTrail(ts[..i + k], Render(ts[i + k..], trail));
    RenderAppend(ts[..i], ts[i..i + k], "");
    RenderTrail(ts[..i], Render(ts[i..i + k], ""));
  }

  lemma EndRender(definition: string, ts: seq<Lexeme>, trail: string)
    requires definition == Render(ts, trail)
    ensures EndOf(ts, |ts|) <= |definition| && definition[EndOf(ts, |ts|)..] == trail
  {
    hide Render;
    assert ts[..|ts|] == ts;
    RenderTrail(ts, trail);
  }

  lemma LeadRender(definition: string, ts: seq<Lexeme>, trail: string, i: nat)
    requires definition == Render(ts, trail) && i < |ts|
    ensures EndOf(ts, i) + |ts[i].lead| <= EndOf(ts, i + 1) <= |definition|
    ensures definition[EndOf(ts, i)..EndOf(ts, i) + |ts[i].lead|] == ts[i].lead
  {
    hide Render;
    RestRender(definition, ts, trail, i, 1);
    var one := definition[EndOf(ts, i)..EndOf(ts, i + 1)];
    assert ts[i..i + 1] == [ts[i]] + [];
    RenderCons(ts[i], [], "");
    assert one[..|ts[i].lead|] == ts[i].lead;
    assert definition[EndOf(ts, i)..EndOf(ts, i) + |ts[i].lead|] == one[..|ts[i].lead|];
  }

  // Tokens that are not recognised are copied.
  lemma RestCopied(definition: string, ts: seq<Lexeme>, trail: string, i: nat, k: nat)
    requires definition == Render(ts, trail) && i < |ts| && i + k <= |ts|
    requires MatchAt(MayWrap(ts, i), ts[i..]).None? && k == Copied(ts[i..])
    ensures && EndOf(ts, i) <= EndOf(ts, i + k) <= |definition|
            && RestOf(ts, trail, i) == definition[EndOf(ts, i)..EndOf(ts, i + k)] + RestOf(ts, trail, i + k)
  {
    hide Render, Rewrite, MatchAt, Copied, CanWrap, EndOf;
    RewriteStep(MayWrap(ts, i), ts[i..]);
    WrapAfter(ts, i);
    RestRender(definition, ts, trail, i, k);
    var more := Rewrite(k == 1 && CanWrap(ts[i]), ts[i + k..]);
    assert ts[i..][..k] == ts[i..i + k] && ts[i..][k..] == ts[i + k..];
    RenderAppend(ts[i..i + k], more, trail);
    RenderTrail(ts[i..i + k], Render(more, trail));
    if i + k == |ts| {
      RewriteEmpty(k == 1 && CanWrap(ts[i]));
      RewriteEmpty(MayWrap(ts, i + k));
    }
  }

  // An array found at a token has literals, and ends within the definition.
  lemma MatchedEnd(definition: string, ts: seq<Lexeme>, trail: string, i: nat)
    requires definition == Render(ts, trail) && i < |ts|
    requires MatchAt(MayWrap(ts, i), ts[i..]).Some?
    ensures var (n, shape) := MatchAt(MayWrap(ts, i), ts[i..]).value;
            && Lits(shape.elems) != [] && 1 <= n <= |ts| - i
            && EndOf(ts, i) <= EndOf(ts, i) + |ts[i].lead| <= EndOf(ts, i + n) <= |definition|
  {
    hide Render, Rewrite, MatchAt, Copied, CanWrap, Canonical, CanonText, Lits, EndOf, MayWrap, Syms, SymOf, RestOf;
    var (n, _) := MatchAt(MayWrap(ts, i), ts[i..]).value;
    RewriteStep(MayWrap(ts, i), ts[i..]);
    LeadRender(definition, ts, trail, i);
    EndMonotone(definition, ts, trail, i + 1, i + n);
  }

  // It is replaced, and what follows is rewritten as it would be at its own place.
  lemma RestCanonical(ts: seq<Lexeme>, trail: string, i: nat)
    requires i < |ts| && MatchAt(MayWrap(ts, i), ts[i..]).Some?
    ensures var (n, shape) := MatchAt(MayWrap(ts, i), ts[i..]).value;
            && Lits(shape.elems) != [] && i + n <= |ts|
            && RestOf(ts, trail, i) == ts[i].lead + CanonText(Lits(shape.elems)) + RestOf(ts, trail, i + n)
  {
    hide Render, Rewrite, MatchAt, Copied, CanWrap, Canonical, CanonText, Lits, MayWrap, Syms, SymOf;
    var (n, shape) := MatchAt(MayWrap(ts, i), ts[i..]).value;
    RewriteStep(MayWrap(ts, i), ts[i..]);
    WrapAfter(ts, i);
    assert ts[i..][n..] == ts[i + n..];
    CanonTextRender(ts[i].lead, Lits(shape.elems), Rewrite(false, ts[i + n..]), trail);
  }

  // A recognised array is replaced, and the white space before it kept.
  lemma RestMatched(definition: string, ts: seq<Lexeme>, trail: string, i: nat)
    requires definition == Render(ts, trail) && i < |ts|
    requires MatchAt(MayWrap(ts, i), ts[i..]).Some?
    ensures var (n, shape) := MatchAt(MayWrap(ts, i), ts[i..]).value;
            && Lits(shape.elems) != []
            && EndOf(ts, i) <= EndOf(ts, i) + |ts[i].lead| <= EndOf(ts, i + n) <= |definition|
            && RestOf(ts, trail, i)
               == definition[EndOf(ts, i)..EndOf(ts, i) + |ts[i].lead|] + CanonText(Lits(shape.elems))
                 + RestOf(ts, trail, i + n)
  {
    hide Render, Rewrite, MatchAt, CanonText, Lits, EndOf, MayWrap, RestOf;
    MatchedEnd(definition, ts, trail, i);
    LeadRender(definition, ts, trail, i);
    RestCanonical(ts, trail, i);
  }

  lemma EndMonotone(definition: string, ts: seq<Lexeme>, trail: string, i: nat, j: nat)
    requires definition == Render(ts, trail) && i <= j <= |ts|
    ensures EndOf(ts, i) <= EndOf(ts, j) <= |definition|
  {
    RestRender(definition, ts, trail, i, j - i);
  }

  lemma ScannedTokens(definition: string)
    requires Lex(definition).Some?
    ensures var (ts, trail) := Lex(definition).value; Tokens(Places(ts), ts) && definition == Render(ts, trail)
  {
    hide Starts, WellKinded;
    LexScans("", definition);
    var (ts, trail) := Lex(definition).value;
    forall i | 0 <= i < |ts| ensures WellKinded(ts[i]) {
      ScansAt(ts, i, trail);
      StartsKind(ts[i], Render(ts[i + 1..], trail));
    }
  }

  // Where the brackets opened at `start` are closed, or the end.
  method BracketEnd(tokens: seq<SqlToken>, start: nat, ghost ts: seq<Lexeme>) returns (end: nat)
    requires Tokens(tokens, ts) && start < |tokens|
    ensures end == start + Skip(Syms(ts)[start..], 0)
  {
    hide SymOf, WellKinded, Places, Value;
    ghost var ss := Syms(ts);
    var depth := 0;
    end := start;
    while end < |tokens|
      invariant start <= end <= |tokens|
      invariant Skip(ss[start..], 0) == end - start + Skip(ss[end..], depth)
    {
      ValueAt(tokens, ts, end);
      assert ss[end..][0] == SymOf(ts[end]) && ss[end..][1..] == ss[end + 1..];
      depth := depth + (if tokens[end].value == "[" then 1 else 0) - (if tokens[end].value == "]" then 1 else 0);
      end := end + 1;
      if depth == 0 {
        return;
      }
    }
  }

  predicate WrappedStart(tokens: seq<SqlToken>, position: nat)
    requires position < |tokens|
  {
    && tokens[position].value == "("
    && position + 1 < |tokens| && tokens[position + 1].kind == Word && tokens[position + 1].value == "array"
    && (position == 0 || (tokens[position - 1].kind == Symbol && tokens[position - 1].value in WRAPS))
  }

  lemma StartsHere(tokens: seq<SqlToken>, ts: seq<Lexeme>, position: nat)
    requires Tokens(tokens, ts) && position < |tokens|
    ensures var isArray := tokens[position].kind == Word && tokens[position].value == "array";
            var ss := Syms(ts[position..]);
            && Syms(ts)[position..] == ss
            && (isArray <==> At(ss, 0, ArrayWord))
            && (WrappedStart(tokens, position) <==> MayWrap(ts, position) && At(ss, 0, LParen) && At(ss, 1, ArrayWord))
            && MatchAt(MayWrap(ts, position), ts[position..])
               == (if isArray || WrappedStart(tokens, position) then MatchShape(ss) else None)
            && (position + 1 < |tokens| ==> (tokens[position + 1].value == "[" <==> At(ss, 1, LBracket)))
  {
    hide SymOf, WellKinded, Value, MatchShape, Render;
    ValueAt(tokens, ts, position);
    if position + 1 < |ts| {
      ValueAt(tokens, ts, position + 1);
    }
    if position > 0 {
      assert tokens[position - 1] == Place(ts, position - 1);
      SymbolValue(ts[position - 1]);
    }
    assert Syms(ts)[position..] == Syms(ts[position..]);
  }

  lemma SymbolValue(t: Lexeme)
    ensures t.kind == Symbol ==> Value(t) == t.text
  {
  }

  // The output so far, the text still to copy, and the normal form of the rest make up the result.
  ghost predicate Progress(definition: string, pieces: seq<string>, copied: nat, position: nat) {
    && Lex(definition).Some?
    && var (ts, trail) := Lex(definition).value;
    && position <= |ts| && copied <= EndOf(ts, position) <= |definition|
    && Normalize(definition) == Concat(pieces) + definition[copied..EndOf(ts, position)] + RestOf(ts, trail, position)
  }

  lemma ProgressMatched(definition: string, pieces: seq<string>, copied: nat, position: nat)
    requires Progress(definition, pieces, copied, position)
    requires var ts := Lex(definition).value.0; position < |ts| && MatchAt(MayWrap(ts, position), ts[position..]).Some?
    ensures var ts := Lex(definition).value.0;
            var tokens := Places(ts);
            var (n, shape) := MatchAt(MayWrap(ts, position), ts[position..]).value;
            && Lits(shape.elems) != [] && position + n <= |ts|
            && copied <= tokens[position].start <= |definition|
            && Progress(definition, pieces + [definition[copied..tokens[position].start], CanonText(Lits(shape.elems))],
                        tokens[position + n - 1].end, position + n)
  {
    hide Render, Rewrite, MatchAt, MatchShape, MayWrap, SymOf, CanonText, Lits, Concat, RestOf, EndOf, Lex, Places;
    var (ts, trail) := Lex(definition).value;
    var (n, shape) := MatchAt(MayWrap(ts, position), ts[position..]).value;
    ScannedTokens(definition);
    RestMatched(definition, ts, trail, position);
    PlaceStart(Places(ts), ts, position, position + n);
    var e, start := EndOf(ts, position), Places(ts)[position].start;
    ConcatSnoc(pieces, definition[copied..start], CanonText(Lits(shape.elems)));
    SliceAppend(definition, copied, e, start);
    Regroup(Concat(pieces), definition[copied..e], definition[e..start], CanonText(Lits(shape.elems)),
            RestOf(ts, trail, position + n));
    assert definition[EndOf(ts, position + n)..EndOf(ts, position + n)] == "";
  }

  lemma Regroup(a: string, b: string, c: string, d: string, e: string)
    ensures a + b + (c + d + e) == a + (b + c) + d + "" + e
    ensures a + b + (c + d) == a + (b + c) + d
  {
  }

  lemma ProgressCopied(definition: string, pieces: seq<string>, copied: nat, position: nat)
    requires Progress(definition, pieces, copied, position)
    requires var ts := Lex(definition).value.0; position < |ts| && MatchAt(MayWrap(ts, position), ts[position..]).None?
    ensures var ts := Lex(definition).value.0; Progress(definition, pieces, copied, position + Copied(ts[position..]))
  {
    hide Render, Rewrite, MatchAt, MatchShape, MayWrap, SymOf, Concat, RestOf, EndOf, Lex, Copied;
    var (ts, trail) := Lex(definition).value;
    var next := position + Copied(ts[position..]);
    ScannedTokens(definition);
    RestCopied(definition, ts, trail, position, next - position);
    SliceAppend(definition, copied, EndOf(ts, position), EndOf(ts, next));
    Regroup(Concat(pieces), definition[copied..EndOf(ts, position)], definition[EndOf(ts, position)..EndOf(ts, next)],
            RestOf(ts, trail, next), "");
  }

  // Rewrites the recognised arrays of a definition and copies everything else.
  method NormalizeCatalogDefinition(definition: string) returns (r: string)
    ensures r == Normalize(definition)
  {
    hide Lex, Places, Tokens, MatchAt, MatchShape, WrappedStart, MayWrap, SymOf, CanonText, Lits, Skip, Progress,
         Concat, Normalize;
    var scanned := SqlTokens(definition);
    if scanned.None? {
      NormalizeRefused(definition);
      return definition;
    }
    var tokens := scanned.value;
    ghost var ts := Lex(definition).value.0;
    ScannedTokens(definition);
    NormalizeStart(definition);
    var pieces: seq<string> := [];
    var copied: nat := 0;
    var position := 0;
    while position < |tokens|
      invariant position <= |tokens| == |ts|
      invariant Progress(definition, pieces, copied, position)
      decreases |tokens| - position
    {
      var arrayStart := tokens[position].kind == Word && tokens[position].value == "array";
      var wrappedStart := WrappedStart(tokens, position);
      StartsHere(tokens, ts, position);
      if arrayStart || wrappedStart {
        var matched := LiteralTextArray(tokens, position, ts);
        if matched.Some? {
          var (end, canonical) := matched.value;
          ProgressMatched(definition, pieces, copied, position);
          pieces := pieces + [definition[copied..tokens[position].start], canonical];
          copied := tokens[end - 1].end;
          position := end;
          continue;
        }
        ProgressCopied(definition, pieces, copied, position);
        CopiedHere(ts[position..]);
        if wrappedStart {
          position := position + 1;
          continue;
        }
        if position + 1 < |tokens| && tokens[position + 1].value == "[" {
          assert ts[position..] != [] && Syms(ts)[position..][1..] == Syms(ts)[position + 1..];
          position := BracketEnd(tokens, position + 1, ts);
          continue;
        }
      } else {
        ProgressCopied(definition, pieces, copied, position);
        CopiedHere(ts[position..]);
      }
      position := position + 1;
    }
    NormalizeEnd(definition, pieces, copied);
    pieces := pieces + [definition[copied..]];
    r := Concat(pieces);
  }

  lemma NormalizeRefused(definition: string)
    requires Lex(definition).None?
    ensures Normalize(definition) == definition
  {
  }

  lemma CopiedHere(ts: seq<Lexeme>)
    requires ts != []
    ensures Copied(ts) == if At(Syms(ts), 0, ArrayWord) && At(Syms(ts), 1, LBracket) then 1 + Skip(Syms(ts)[1..], 0)
                          else 1
  {
  }

  lemma SliceAppend(s: string, a: nat, b: nat, c: nat)
    requires a <= b <= c <= |s|
    ensures s[a..b] + s[b..c] == s[a..c]
  {
  }

  lemma PlaceStart(tokens: seq<SqlToken>, ts: seq<Lexeme>, i: nat, end: nat)
    requires Tokens(tokens, ts) && i < end <= |tokens|
    ensures tokens[i].start == EndOf(ts, i) + |ts[i].lead| && tokens[end - 1].end == EndOf(ts, end)
  {
    assert tokens[i] == Place(ts, i) && tokens[end - 1] == Place(ts, end - 1);
  }

  lemma NormalizeStart(definition: string)
    requires Lex(definition).Some?
    ensures Progress(definition, [], 0, 0)
  {
    var (ts, trail) := Lex(definition).value;
    assert ts[..0] == [] && ts[0..] == ts;
    assert Concat([]) + definition[0..0] + RestOf(ts, trail, 0) == RestOf(ts, trail, 0);
  }

  lemma NormalizeEnd(definition: string, pieces: seq<string>, copied: nat)
    requires Lex(definition).Some? && Progress(definition, pieces, copied, |Lex(definition).value.0|)
    ensures copied <= |definition|
    ensures Normalize(definition) == Concat(pieces + [definition[copied..]])
  {
    hide Lex, Normalize, Rewrite, Concat, EndOf;
    var (ts, trail) := Lex(definition).value;
    var end := EndOf(ts, |ts|);
    ScannedTokens(definition);
    EndRender(definition, ts, trail);
    assert ts[|ts|..] == [];
    RewriteEmpty(MayWrap(ts, |ts|));
    SliceAppend(definition, copied, end, |definition|);
    ConcatSnoc(pieces, definition[copied..], "");
    Regroup(Concat(pieces), definition[copied..end], definition[end..], "", "");
    assert Concat(pieces) + definition[copied..] + "" == Concat(pieces) + definition[copied..];
    assert definition[end..] + "" == definition[end..];
  }
}
