// Normalization of catalog definitions as text: what it preserves, what it identifies,
// and that a second normalization changes nothing.
module SqlNormalizer {
  import opened Wrappers
  import opened SqlLexer
  import opened SqlArrays
  import opened SqlRewrite

  // ---------------------------------------------------------------- the output scans

  ghost predicate AllLiterals(lits: seq<string>) {
    forall i | 0 <= i < |lits| :: LiteralText(lits[i])
  }

  lemma SymbolStarts(lead: string, s: char, r: string)
    requires s in {'[', ']', ','}
    ensures Starts(Lexeme(lead, Symbol, [s]), r)
  {
    assert ([s] + r)[0] == s;
  }

  lemma CastStarts(r: string)
    ensures Starts(CAST, r)
  {
    assert ("::" + r)[..2] == "::";
  }

  lemma CanonWords(lead: string, r: string)
    requires r == "" || !IsWordChar(r[0])
    ensures Starts(Lexeme(lead, Word, "ARRAY"), r)
    ensures Starts(Lexeme(lead, Word, "character"), r)
    ensures Starts(Lexeme(lead, Word, "varying"), r)
    ensures Starts(Lexeme(lead, Word, "text"), r)
  {
    WordStarts("ARRAY", r);
    WordStarts("character", r);
    WordStarts("varying", r);
    WordStarts("text", r);
  }

  lemma ScansCons(t: Lexeme, ts: seq<Lexeme>, trail: string)
    requires AllSpace(t.lead) && Starts(t, Render(ts, trail)) && Scans(ts, trail)
    ensures Scans([t] + ts, trail)
  {
    assert ([t] + ts)[1..] == ts;
  }

  lemma RenderCons(t: Lexeme, ts: seq<Lexeme>, trail: string)
    ensures Render([t] + ts, trail) == t.lead + t.text + Render(ts, trail)
  {
    assert ([t] + ts)[1..] == ts;
  }

  lemma CanonElemScans(lit: string, ts: seq<Lexeme>, trail: string)
    requires LiteralText(lit) && Scans(ts, trail)
    requires Render(ts, trail) != "" && !IsWordChar(Render(ts, trail)[0])
    ensures Scans(CanonElem(lit) + ts, trail)
    ensures Render(CanonElem(lit) + ts, trail) != "" && Render(CanonElem(lit) + ts, trail)[0] == '\''
  {
    hide Render, Scans, Starts;
    var e := CanonElem(lit);
    var t5 := [e[5]] + ts;
    RenderCons(e[5], ts, trail);
    CanonWords("", Render(ts, trail));
    ScansCons(e[5], ts, trail);
    var t4 := [e[4]] + t5;
    RenderCons(e[4], t5, trail);
    CastStarts(Render(t5, trail));
    ScansCons(e[4], t5, trail);
    var t3 := [e[3]] + t4;
    RenderCons(e[3], t4, trail);
    CanonWords(" ", Render(t4, trail));
    ScansCons(e[3], t4, trail);
    var t2 := [e[2]] + t3;
    RenderCons(e[2], t3, trail);
    CanonWords("", Render(t3, trail));
    ScansCons(e[2], t3, trail);
    var t1 := [e[1]] + t2;
    RenderCons(e[1], t2, trail);
    CastStarts(Render(t2, trail));
    ScansCons(e[1], t2, trail);
    RenderCons(e[0], t1, trail);
    LiteralStarts(lit, Render(t1, trail));
    ScansCons(e[0], t1, trail);
    assert e + ts == [e[0]] + t1;
  }

  lemma {:induction false} CanonElemsScan(lits: seq<string>, ts: seq<Lexeme>, trail: string)
    requires lits != [] && AllLiterals(lits) && Scans(ts, trail)
    ensures Scans(CanonElems(lits) + ts, trail)
    ensures Render(CanonElems(lits) + ts, trail) != "" && Render(CanonElems(lits) + ts, trail)[0] == '\''
  {
    hide Render, Scans, Starts, CanonElem, LiteralText;
    if |lits| == 1 {
      var close := Lexeme("", Symbol, "]");
      SymbolStarts("", ']', Render(ts, trail));
      ScansCons(close, ts, trail);
      RenderCons(close, ts, trail);
      CanonElemScans(lits[0], [close] + ts, trail);
      assert CanonElems(lits) + ts == CanonElem(lits[0]) + ([close] + ts);
    } else {
      var comma := Lexeme("", Symbol, ",");
      CanonElemsScan(lits[1..], ts, trail);
      var more := CanonElems(lits[1..]) + ts;
      SymbolStarts("", ',', Render(more, trail));
      ScansCons(comma, more, trail);
      RenderCons(comma, more, trail);
      CanonElemScans(lits[0], [comma] + more, trail);
      assert CanonElems(lits) + ts == CanonElem(lits[0]) + ([comma] + more);
    }
  }

  lemma CanonicalScans(lead: string, lits: seq<string>, ts: seq<Lexeme>, trail: string)
    requires AllSpace(lead) && lits != [] && AllLiterals(lits) && Scans(ts, trail)
    ensures Scans(Canonical(lead, lits) + ts, trail)
    ensures Render(Canonical(lead, lits) + ts, trail) != ""
    ensures Render(Canonical(lead, lits) + ts, trail)[0] == if lead == "" then 'A' else lead[0]
  {
    hide Render, Scans, Starts, CanonElems;
    CanonElemsScan(lits, ts, trail);
    var inner := CanonElems(lits) + ts;
    var open, word := Lexeme("", Symbol, "["), Lexeme(lead, Word, "ARRAY");
    SymbolStarts("", '[', Render(inner, trail));
    ScansCons(open, inner, trail);
    RenderCons(open, inner, trail);
    CanonWords(lead, Render([open] + inner, trail));
    ScansCons(word, [open] + inner, trail);
    RenderCons(word, [open] + inner, trail);
    assert Canonical(lead, lits) + ts == [word] + ([open] + inner);
  }

  // A change of what follows the last of some tokens keeps them, if that token allows the change.
  lemma {:induction false} SpliceScans(head: seq<Lexeme>, b: seq<Lexeme>, r: seq<Lexeme>, trail: string, wraps: bool)
    requires head != [] && Scans(head + b, trail) && Scans(r, trail)
    requires SameStart(Render(b, trail), Render(r, trail), wraps)
    requires wraps ==> CanWrap(head[|head| - 1])
    ensures Scans(head + r, trail)
    decreases |head|
  {
    hide Starts, CanWrap, Scans, Render;
    var t := head[0];
    ScansAt(head + b, 0, trail);
    ScansDrop(head + b, 1, trail);
    if |head| == 1 {
      assert (head + b)[1..] == b && head + r == [t] + r;
      StartsLocal(t, Render(b, trail), Render(r, trail));
      ScansCons(t, r, trail);
    } else {
      var h := head[1..];
      assert (head + b)[1..] == h + b && head + r == [t] + (h + r);
      SpliceScans(h, b, r, trail, wraps);
      assert h + b == [h[0]] + (h[1..] + b) && h + r == [h[0]] + (h[1..] + r);
      ScansAt(h + b, 0, trail);
      StartsText(h[0], Render((h + b)[1..], trail));
      RenderHead(h[0], h[1..] + b, trail);
      RenderHead(h[0], h[1..] + r, trail);
      StartsLocal(t, Render(h + b, trail), Render(h + r, trail));
      ScansCons(t, h + r, trail);
    }
  }

  lemma RenderHead(t: Lexeme, ts: seq<Lexeme>, trail: string)
    ensures t.text != "" ==> Render([t] + ts, trail) != "" && Render([t] + ts, trail)[0] == (t.lead + t.text)[0]
  {
    RenderCons(t, ts, trail);
  }

  lemma {:induction false} ScansDrop(ts: seq<Lexeme>, k: nat, trail: string)
    requires k <= |ts| && Scans(ts, trail)
    ensures Scans(ts[k..], trail)
    decreases k
  {
    if k > 0 {
      ScansDrop(ts[1..], k - 1, trail);
      assert ts[1..][k - 1..] == ts[k..];
    } else {
      assert ts[0..] == ts;
    }
  }

  lemma ScansAt(ts: seq<Lexeme>, i: nat, trail: string)
    requires i < |ts| && Scans(ts, trail)
    ensures AllSpace(ts[i].lead) && Starts(ts[i], Render(ts[i + 1..], trail))
  {
    ScansDrop(ts, i, trail);
    assert ts[i..][1..] == ts[i + 1..];
  }

  // Literals of a spelling are literals of the text.
  lemma {:induction false} SpelledLits(es: seq<Elem>, i: nat)
    requires es != [] && i < |es|
    ensures Lit(es[i].lit) in SpellElems(es)
    decreases |es|
  {
    if i == 0 {
      var e := SpellElem(es[0]);
      assert e[if es[0].paren then 1 else 0] == Lit(es[0].lit);
    } else {
      SpelledLits(es[1..], i - 1);
    }
  }

  lemma MatchedLiterals(ok: bool, ts: seq<Lexeme>, trail: string)
    requires Scans(ts, trail) && MatchAt(ok, ts).Some?
    ensures AllLiterals(Lits(MatchAt(ok, ts).value.1.elems)) && Lits(MatchAt(ok, ts).value.1.elems) != []
  {
    hide SymOf, Scans, Starts, LiteralText, SpellElems;
    var shape := MatchAt(ok, ts).value.1;
    var es := shape.elems;
    LitsLength(es);
    MatchSound(Syms(ts));
    forall i | 0 <= i < |es| ensures LiteralText(Lits(es)[i]) {
      SpelledLits(es, i);
      assert Lit(es[i].lit) in Spell(shape);
      var j :| 0 <= j < |Spell(shape)| && Spell(shape)[j] == Lit(es[i].lit);
      assert Syms(ts)[j] == Lit(es[i].lit);
      LiteralSym(ts[j]);
      ScansAt(ts, j, trail);
      StartsLiteral(ts[j], Render(ts[j + 1..], trail));
    }
  }

  lemma LiteralSym(t: Lexeme)
    ensures SymOf(t).Lit? ==> t.kind == Literal && SymOf(t).text == t.text
  {
  }

  lemma ArraySymText(t: Lexeme)
    ensures SymOf(t) == ArrayWord ==> t.text != "" && t.text[0] in {'a', 'A'}
    ensures SymOf(t) == LParen ==> t.text == "("
  {
    if SymOf(t) == ArrayWord {
      assert Lower(t.text)[0] == 'a';
    }
  }

  lemma MatchAtFirst(ok: bool, ts: seq<Lexeme>)
    requires MatchAt(ok, ts).Some?
    ensures SymOf(ts[0]) == ArrayWord || (ok && SymOf(ts[0]) == LParen)
  {
    hide SymOf, MatchShape;
    assert Syms(ts)[0] == SymOf(ts[0]);
  }

  // A recognised array starts like its canonical spelling.
  lemma MatchedStart(ok: bool, ts: seq<Lexeme>, lits: seq<string>, r: seq<Lexeme>, trail: string)
    requires MatchAt(ok, ts).Some? && lits != [] && ts[0].text != ""
    ensures SameStart(Render(ts, trail), Render(Canonical(ts[0].lead, lits) + r, trail), ok)
  {
    hide SymOf, MatchAt, Canonical;
    var t := ts[0];
    assert ts == [t] + ts[1..];
    RenderHead(t, ts[1..], trail);
    CanonicalStart(t.lead, lits, r, trail);
    MatchAtFirst(ok, ts);
    ArraySymText(t);
  }

  lemma CopiedStart(ok: bool, ts: seq<Lexeme>, k: nat, r: seq<Lexeme>, trail: string)
    requires 1 <= k <= |ts| && ts[0].text != ""
    ensures SameStart(Render(ts, trail), Render(ts[..k] + r, trail), ok)
  {
    var t := ts[0];
    assert ts == [t] + ts[1..];
    assert ts[..k] + r == [t] + (ts[1..k] + r);
    RenderHead(t, ts[1..], trail);
    RenderHead(t, ts[1..k] + r, trail);
  }

  lemma RewriteStart(ok: bool, ts: seq<Lexeme>, trail: string)
    requires Scans(ts, trail) && Scans(Rewrite(ok, ts), trail)
    ensures SameStart(Render(ts, trail), Render(Rewrite(ok, ts), trail), ok)
  {
    hide SymOf, MatchAt, Starts, Canonical, Scans, Copied, CanWrap, AllSpace, Rewrite, Render, SameStart;
    if ts == [] {
      RewriteEmpty(ok);
      SameEmpty(ok, trail);
    } else {
      ScansAt(ts, 0, trail);
      StartsText(ts[0], Render(ts[1..], trail));
      RewriteStep(ok, ts);
      if MatchAt(ok, ts).Some? {
        var (n, shape) := MatchAt(ok, ts).value;
        MatchedStart(ok, ts, Lits(shape.elems), Rewrite(false, ts[n..]), trail);
      } else {
        var k := Copied(ts);
        CopiedStart(ok, ts, k, Rewrite(k == 1 && CanWrap(ts[0]), ts[k..]), trail);
      }
    }
  }

  lemma SameEmpty(ok: bool, trail: string)
    ensures SameStart(Render([], trail), Render([], trail), ok)
  {
  }

  lemma StartsText(t: Lexeme, r: string)
    requires Starts(t, r)
    ensures t.text != ""
  {
  }

  lemma CanonicalStart(lead: string, lits: seq<string>, ts: seq<Lexeme>, trail: string)
    requires lits != []
    ensures Render(Canonical(lead, lits) + ts, trail) != ""
    ensures Render(Canonical(lead, lits) + ts, trail)[0] == if lead == "" then 'A' else lead[0]
  {
    var word, open := Lexeme(lead, Word, "ARRAY"), Lexeme("", Symbol, "[");
    assert Canonical(lead, lits) + ts == [word] + ([open] + (CanonElems(lits) + ts));
    RenderHead(word, [open] + (CanonElems(lits) + ts), trail);
  }

  lemma {:induction false} RewriteScans(ok: bool, ts: seq<Lexeme>, trail: string)
    requires Scans(ts, trail)
    ensures Scans(Rewrite(ok, ts), trail)
    decreases |ts|
  {
    hide SymOf, MatchAt, Starts, Canonical, Scans, Copied, CanWrap, Render;
    if ts != [] {
      if MatchAt(ok, ts).Some? {
        var (n, shape) := MatchAt(ok, ts).value;
        MatchedLiterals(ok, ts, trail);
        ScansAt(ts, 0, trail);
        ScansDrop(ts, n, trail);
        RewriteScans(false, ts[n..], trail);
        CanonicalScans(ts[0].lead, Lits(shape.elems), Rewrite(false, ts[n..]), trail);
      } else {
        var k := Copied(ts);
        var wraps := k == 1 && CanWrap(ts[0]);
        ScansDrop(ts, k, trail);
        RewriteScans(wraps, ts[k..], trail);
        RewriteStart(wraps, ts[k..], trail);
        assert ts == ts[..k] + ts[k..];
        SpliceScans(ts[..k], ts[k..], Rewrite(wraps, ts[k..]), trail, wraps);
      }
    }
  }

  // The tokens of a normalized text are the rewritten tokens of the text.
  lemma NormalizedTokens(definition: string)
    requires Lex(definition).Some?
    ensures var (ts, trail) := Lex(definition).value;
            Lex(Normalize(definition)) == Some((Rewrite(true, ts), trail))
  {
    var (ts, trail) := Lex(definition).value;
    LexScans("", definition);
    RewriteScans(true, ts, trail);
    ScansLex(Rewrite(true, ts), trail);
  }

  // Normalizing twice is normalizing once, for every text.
  lemma NormalizeIdempotent(definition: string)
    ensures Normalize(Normalize(definition)) == Normalize(definition)
  {
    hide Rewrite;
    if Lex(definition).Some? {
      NormalizedTokens(definition);
      RewriteIdempotent(true, Lex(definition).value.0);
    }
  }

  // ---------------------------------------------------------------- what is preserved

  // The tokens that are not part of any array cast: literals, and all that is not recognised.
  function Content(ts: seq<Lexeme>): seq<(Kind, string)> {
    if ts == [] then [] else Own(ts[0]) + Content(ts[1..])
  }

  function Own(t: Lexeme): seq<(Kind, string)> {
    if SymOf(t).Lit? || SymOf(t).Other? then [(t.kind, t.text)] else []
  }

  function LitContent(ss: seq<Sym>): seq<(Kind, string)> {
    if ss == [] then []
    else (if ss[0].Lit? then [(Literal, ss[0].text)] else []) + LitContent(ss[1..])
  }

  function AsContent(lits: seq<string>): (r: seq<(Kind, string)>)
    ensures |r| == |lits|
  {
    seq(|lits|, i requires 0 <= i < |lits| => (Literal, lits[i]))
  }

  lemma {:induction false} ContentAppend(a: seq<Lexeme>, b: seq<Lexeme>)
    ensures Content(a + b) == Content(a) + Content(b)
  {
    hide Own;
    if a == [] {
      assert a + b == b;
    } else {
      assert (a + b)[1..] == a[1..] + b;
      ContentAppend(a[1..], b);
      assert Own(a[0]) + (Content(a[1..]) + Content(b)) == Own(a[0]) + Content(a[1..]) + Content(b);
    }
  }

  lemma LitContentStep(ss: seq<Sym>)
    requires ss != []
    ensures LitContent(ss) == (if ss[0].Lit? then [(Literal, ss[0].text)] else []) + LitContent(ss[1..])
  {
  }

  lemma {:induction false} LitContentAppend(a: seq<Sym>, b: seq<Sym>)
    ensures LitContent(a + b) == LitContent(a) + LitContent(b)
  {
    if a == [] {
      assert a + b == b;
    } else {
      hide LitContent;
      var first := if a[0].Lit? then [(Literal, a[0].text)] else [];
      assert (a + b)[1..] == a[1..] + b;
      LitContentStep(a);
      LitContentStep(a + b);
      LitContentAppend(a[1..], b);
      assert first + LitContent(a[1..]) + LitContent(b) == first + (LitContent(a[1..]) + LitContent(b));
    }
  }

  lemma {:induction false} ContentOfSyms(ts: seq<Lexeme>)
    requires Other !in Syms(ts)
    ensures Content(ts) == LitContent(Syms(ts))
  {
    hide SymOf;
    if ts != [] {
      assert Syms(ts)[0] == SymOf(ts[0]) && Syms(ts[1..]) == Syms(ts)[1..];
      LiteralSym(ts[0]);
      ContentOfSyms(ts[1..]);
    }
  }

  lemma NoLits(ss: seq<Sym>)
    requires forall s | s in ss :: !s.Lit?
    ensures LitContent(ss) == []
  {
  }

  lemma ElemContent(e: Elem)
    ensures LitContent(SpellElem(e)) == [(Literal, e.lit)]
  {
    hide LitContent;
    var pre, post := if e.paren then [LParen] else [],
                     (if e.paren then [RParen] else []) + (if e.coerced then [Cast, TextWord] else []);
    var mid := [Cast, Character, Varying] + post;
    assert SpellElem(e) == pre + ([Lit(e.lit)] + mid);
    LitContentAppend(pre, [Lit(e.lit)] + mid);
    LitContentAppend([Lit(e.lit)], mid);
    NoLits(pre);
    NoLits(mid);
    SingleLit(e.lit);
  }

  lemma SingleLit(lit: string)
    ensures LitContent([Lit(lit)]) == [(Literal, lit)]
  {
  }

  lemma AsContentCons(lits: seq<string>)
    requires lits != []
    ensures AsContent(lits) == [(Literal, lits[0])] + AsContent(lits[1..])
  {
  }

  lemma {:induction false} ElemsContent(es: seq<Elem>)
    requires es != []
    ensures LitContent(SpellElems(es)) == AsContent(Lits(es))
  {
    hide LitContent, SpellElem, AsContent;
    ElemContent(es[0]);
    LitContentAppend(SpellElem(es[0]), AfterElem(es));
    assert Lits(es) == [es[0].lit] + Lits(es[1..]);
    AsContentCons(Lits(es));
    if |es| == 1 {
      NoLits([RBracket]);
      assert AsContent([]) == [];
    } else {
      ElemsContent(es[1..]);
      LitContentAppend([Comma], SpellElems(es[1..]));
      NoLits([Comma]);
    }
  }

  // Every symbol of a spelling is one of the fixed symbols or a literal.
  lemma {:induction false} ElemsNoOther(es: seq<Elem>)
    requires es != []
    ensures Other !in SpellElems(es)
  {
    var head := SpellElem(es[0]);
    assert forall i | 0 <= i < |head| :: head[i] != Other;
    if |es| > 1 {
      ElemsNoOther(es[1..]);
    }
  }

  lemma SpellContent(shape: Shape)
    requires shape.elems != []
    ensures LitContent(Spell(shape)) == AsContent(Lits(shape.elems))
    ensures Other !in Spell(shape)
  {
    hide LitContent, SpellElems, AsContent, Lits;
    ElemsContent(shape.elems);
    ElemsNoOther(shape.elems);
    LitContentAppend(Opening(shape.outer), SpellElems(shape.elems) + Ending(shape));
    LitContentAppend(SpellElems(shape.elems), Ending(shape));
    NoLits(Opening(shape.outer));
    NoLits(Ending(shape));
  }

  lemma CanonicalContent(lead: string, lits: seq<string>)
    requires lits != []
    ensures Content(Canonical(lead, lits)) == AsContent(lits)
  {
    hide Content, SpellElems, CanonElems, SymOf;
    var ts := Canonical(lead, lits);
    assert ts + [] == ts && Syms([]) == [];
    CanonicalSyms(lead, lits, []);
    ElemsContent(Coerced(lits));
    ElemsNoOther(Coerced(lits));
    CoercedLits(lits);
    assert Syms(ts) == [ArrayWord, LBracket] + SpellElems(Coerced(lits));
    ContentOfSyms(ts);
    LitContentAppend([ArrayWord, LBracket], SpellElems(Coerced(lits)));
    NoLits([ArrayWord, LBracket]);
  }

  lemma MatchedContent(ok: bool, ts: seq<Lexeme>)
    requires MatchAt(ok, ts).Some?
    ensures var (n, shape) := MatchAt(ok, ts).value;
            Lits(shape.elems) != [] && Content(Canonical(ts[0].lead, Lits(shape.elems))) == Content(ts[..n])
  {
    hide Content, LitContent, SpellElems, Canonical, SymOf;
    var (n, shape) := MatchAt(ok, ts).value;
    MatchSound(Syms(ts));
    LitsLength(shape.elems);
    assert Syms(ts[..n]) == Spell(shape);
    SpellContent(shape);
    ContentOfSyms(ts[..n]);
    CanonicalContent(ts[0].lead, Lits(shape.elems));
  }

  lemma ContentParts(ts: seq<Lexeme>, n: nat, a: seq<Lexeme>, b: seq<Lexeme>)
    requires n <= |ts| && Content(a) == Content(ts[..n]) && Content(b) == Content(ts[n..])
    ensures Content(a + b) == Content(ts)
  {
    hide Content;
    assert ts == ts[..n] + ts[n..];
    ContentAppend(ts[..n], ts[n..]);
    ContentAppend(a, b);
  }

  // Rewriting loses, adds and reorders no literal and no unrecognised token.
  lemma {:induction false} ContentPreserved(ok: bool, ts: seq<Lexeme>)
    ensures Content(Rewrite(ok, ts)) == Content(ts)
    decreases |ts|
  {
    hide Content, Canonical, SymOf, MatchAt, Copied, CanWrap, Rewrite, Lits, Syms;
    if ts == [] {
      assert Rewrite(ok, ts) == ts by { RewriteEmpty(ok); }
    } else {
      RewriteStep(ok, ts);
      if MatchAt(ok, ts).Some? {
        var (n, shape) := MatchAt(ok, ts).value;
        MatchedContent(ok, ts);
        ContentPreserved(false, ts[n..]);
        ContentParts(ts, n, Canonical(ts[0].lead, Lits(shape.elems)), Rewrite(false, ts[n..]));
      } else {
        var k := Copied(ts);
        var wraps := k == 1 && CanWrap(ts[0]);
        ContentPreserved(wraps, ts[k..]);
        ContentParts(ts, k, ts[..k], Rewrite(wraps, ts[k..]));
      }
    }
  }

  lemma RewriteEmpty(ok: bool)
    ensures Rewrite(ok, []) == []
  {
  }

  // Two definitions that normalize alike have the same literals and unrecognised tokens, in order.
  lemma NormalizeSeparates(d1: string, d2: string)
    requires Lex(d1).Some? && Lex(d2).Some?
    requires Normalize(d1) == Normalize(d2)
    ensures Content(Lex(d1).value.0) == Content(Lex(d2).value.0)
  {
    hide Rewrite, Content;
    NormalizedTokens(d1);
    NormalizedTokens(d2);
    ContentPreserved(true, Lex(d1).value.0);
    ContentPreserved(true, Lex(d2).value.0);
  }

  // ---------------------------------------------------------------- what is identified

  // `ts` is an array in this spelling and then `rest`.
  ghost predicate SpelledThen(ts: seq<Lexeme>, lead: string, shape: Shape, rest: seq<Lexeme>) {
    ts != [] && ts[0].lead == lead && Spelled(Syms(ts), shape) && ts[|Spell(shape)|..] == rest
  }

  // Every spelling of an array is rewritten to the canonical one of its literals: the cast on the
  // array or on each element, and parentheses around the array or any of the elements, do not matter.
  lemma SpellingRewritten(ok: bool, ts: seq<Lexeme>, lead: string, shape: Shape, rest: seq<Lexeme>)
    requires SpelledThen(ts, lead, shape, rest) && (shape.outer ==> ok)
    ensures Lits(shape.elems) != []
    ensures Rewrite(ok, ts) == Canonical(lead, Lits(shape.elems)) + Rewrite(false, rest)
  {
    hide SymOf, SpellElems, Ending, MatchShape;
    var ss := Syms(ts);
    MatchComplete(ss, shape);
    LitsLength(shape.elems);
    PrefixSplit(ss, Opening(shape.outer), SpellElems(shape.elems) + Ending(shape));
    assert Opening(shape.outer) <= ss;
    assert ss[0] == Opening(shape.outer)[0] && ss[1] == Opening(shape.outer)[1];
  }

  // An array that is recognised without the parenthesis before it is not recognised with it.
  lemma ParenBeforeSpelling(ss: seq<Sym>, shape: Shape)
    requires Spelled(ss, shape)
    ensures MatchShape([LParen] + ss).None?
  {
    hide SpellElems, Ending, MatchRest;
    var b, c := SpellElems(shape.elems), Ending(shape);
    PrefixSplit(ss, Opening(shape.outer), b + c);
    var all := [LParen] + ss;
    assert all[1] == ss[0] == Opening(shape.outer)[0];
    if shape.outer {
      assert Opening(true)[1] == ArrayWord;
    } else {
      assert all[3..] == ss[2..];
      RestNotTwice(shape, ss[2..]);
    }
  }

  lemma RestNotTwice(shape: Shape, x: seq<Sym>)
    requires Valid(shape) && !shape.outer && SpellElems(shape.elems) + Ending(shape) <= x
    ensures MatchRest(true, x).None?
  {
    hide SpellElems, Elements;
    var b, c := SpellElems(shape.elems), Ending(shape);
    PrefixSplit(x, b, c);
    ElementsComplete(x, shape.elems);
    if !AnyCoerced(shape.elems) {
      assert x[|b|..][0] == c[0] == Cast;
    }
  }

  // Tokens with no array among them are kept as they are.
  lemma {:induction false} RewritePrefix(ok: bool, pre: seq<Lexeme>, ts: seq<Lexeme>)
    requires ArrayWord !in Syms(pre)
    requires MatchShape([LParen] + Syms(ts)).None?
    decreases |pre|
    ensures Rewrite(ok, pre + ts) == pre + Rewrite(if pre == [] then ok else CanWrap(pre[|pre| - 1]), ts)
  {
    hide SymOf, MatchShape, CanWrap, Rewrite, Skip;
    if pre == [] {
      assert pre + ts == ts && pre + Rewrite(ok, ts) == Rewrite(ok, ts);
    } else {
      var t, all := pre[0], pre + ts;
      assert all[1..] == pre[1..] + ts && all[..1] == [t];
      assert Syms(pre[1..]) == Syms(pre)[1..];
      RewritePrefix(CanWrap(t), pre[1..], ts);
      PrefixUnmatched(ok, pre, ts);
      RewriteStep(ok, all);
      if |pre| > 1 {
        assert pre[1..][|pre| - 2] == pre[|pre| - 1];
        assert pre[1..] != [];
      }
    }
  }

  lemma PrefixUnmatched(ok: bool, pre: seq<Lexeme>, ts: seq<Lexeme>)
    requires pre != [] && ArrayWord !in Syms(pre)
    requires MatchShape([LParen] + Syms(ts)).None?
    ensures MatchAt(ok, pre + ts).None? && Copied(pre + ts) == 1
  {
    hide SymOf, MatchShape, Skip;
    var all := pre + ts;
    SymsAppend(pre, ts);
    assert Syms(all)[0] == Syms(pre)[0];
    if Syms(pre)[0] == LParen {
      if |pre| == 1 {
        assert Syms(all) == [LParen] + Syms(ts);
      } else {
        assert Syms(all)[1] == Syms(pre)[1];
      }
    }
  }

  lemma SpellingRewrittenAfter(pre: seq<Lexeme>, ts: seq<Lexeme>, lead: string, shape: Shape, rest: seq<Lexeme>)
    requires ArrayWord !in Syms(pre) && SpelledThen(ts, lead, shape, rest)
    requires shape.outer && pre != [] ==> CanWrap(pre[|pre| - 1])
    ensures Lits(shape.elems) != []
    ensures Rewrite(true, pre + ts) == pre + (Canonical(lead, Lits(shape.elems)) + Rewrite(false, rest))
  {
    hide Rewrite, CanWrap, MatchShape;
    ParenBeforeSpelling(Syms(ts), shape);
    RewritePrefix(true, pre, ts);
    SpellingRewritten(pre == [] || CanWrap(pre[|pre| - 1]), ts, lead, shape, rest);
  }

  // Definitions that differ only in how one array is spelled have the same normal form.
  lemma SpellingsAgree(d1: string, d2: string, pre: seq<Lexeme>, a1: seq<Lexeme>, a2: seq<Lexeme>,
                       lead: string, s1: Shape, s2: Shape, rest: seq<Lexeme>, trail: string)
    requires Lex(d1) == Some((pre + a1, trail)) && SpelledThen(a1, lead, s1, rest)
    requires Lex(d2) == Some((pre + a2, trail)) && SpelledThen(a2, lead, s2, rest)
    requires Lits(s1.elems) == Lits(s2.elems)
    requires ArrayWord !in Syms(pre)
    requires (s1.outer || s2.outer) && pre != [] ==> CanWrap(pre[|pre| - 1])
    ensures Normalize(d1) == Normalize(d2)
  {
    hide Rewrite, SpelledThen;
    SpellingRewrittenAfter(pre, a1, lead, s1, rest);
    SpellingRewrittenAfter(pre, a2, lead, s2, rest);
  }

  // A definition as parts: tokens kept as they are, and arrays by their literals alone.
  datatype Part = Kept(tokens: seq<Lexeme>) | ArrayOf(lead: string, lits: seq<string>)

  // No array is spelled here, and these are the tokens then copied: one, or an unsupported array.
  ghost predicate KeptAt(ok: bool, ts: seq<Lexeme>, tokens: seq<Lexeme>) {
    && ts != [] && tokens == ts[..Copied(ts)]
    && forall shape :: Spelled(Syms(ts), shape) ==> shape.outer && !ok
  }

  // The tokens are these parts, each array in whatever spelling.
  ghost predicate Reads(ok: bool, ts: seq<Lexeme>, parts: seq<Part>)
    decreases |parts|
  {
    if parts == [] then ts == []
    else if parts[0].ArrayOf? then
      exists shape, rest :: SpelledThen(ts, parts[0].lead, shape, rest) && (shape.outer ==> ok)
                            && Lits(shape.elems) == parts[0].lits && Reads(false, rest, parts[1..])
    else
      && KeptAt(ok, ts, parts[0].tokens)
      && Reads(|parts[0].tokens| == 1 && CanWrap(ts[0]), ts[|parts[0].tokens|..], parts[1..])
  }

  // The canonical spelling of every array, between the tokens kept.
  function Assemble(parts: seq<Part>): seq<Lexeme> {
    if parts == [] then []
    else if parts[0].Kept? then parts[0].tokens + Assemble(parts[1..])
    else if parts[0].lits == [] then Assemble(parts[1..])
    else Canonical(parts[0].lead, parts[0].lits) + Assemble(parts[1..])
  }

  lemma KeptUnmatched(ok: bool, ts: seq<Lexeme>, tokens: seq<Lexeme>)
    requires KeptAt(ok, ts, tokens)
    ensures MatchAt(ok, ts).None?
  {
    hide SymOf, MatchShape, Spell, Copied;
    var ss := Syms(ts);
    if MatchAt(ok, ts).Some? {
      var shape := MatchShape(ss).value.1;
      MatchSound(ss);
      assert Spelled(ss, shape);
      OpeningFirst(ss, shape);
    }
  }

  lemma OpeningFirst(ss: seq<Sym>, shape: Shape)
    requires Spelled(ss, shape)
    ensures ss != [] && (shape.outer ==> ss[0] == LParen)
  {
    hide SpellElems, Ending;
    PrefixSplit(ss, Opening(shape.outer), SpellElems(shape.elems) + Ending(shape));
  }

  lemma {:induction false} ReadsRewritten(ok: bool, ts: seq<Lexeme>, parts: seq<Part>)
    requires Reads(ok, ts, parts)
    ensures Rewrite(ok, ts) == Assemble(parts)
    decreases |parts|
  {
    hide SpelledThen, KeptAt, Copied, MatchAt, CanWrap, Canonical, Spelled;
    if parts == [] {
    } else if parts[0].ArrayOf? {
      var shape, rest :| SpelledThen(ts, parts[0].lead, shape, rest) && (shape.outer ==> ok)
                         && Lits(shape.elems) == parts[0].lits && Reads(false, rest, parts[1..]);
      SpellingRewritten(ok, ts, parts[0].lead, shape, rest);
      ReadsRewritten(false, rest, parts[1..]);
    } else {
      KeptUnmatched(ok, ts, parts[0].tokens);
      KeptIs(ok, ts, parts[0].tokens);
      RewriteStep(ok, ts);
      ReadsRewritten(|parts[0].tokens| == 1 && CanWrap(ts[0]), ts[|parts[0].tokens|..], parts[1..]);
    }
  }

  lemma KeptIs(ok: bool, ts: seq<Lexeme>, tokens: seq<Lexeme>)
    requires KeptAt(ok, ts, tokens)
    ensures ts != [] && tokens == ts[..Copied(ts)] && |tokens| == Copied(ts)
  {
    hide Spelled, Copied;
  }

  // Every sequence of tokens reads as some parts.
  lemma {:induction false} ReadsSome(ok: bool, ts: seq<Lexeme>) returns (parts: seq<Part>)
    ensures Reads(ok, ts, parts)
    decreases |ts|
  {
    hide Copied, MatchAt, CanWrap, Spelled, Reads, KeptAt, SpelledThen;
    if ts == [] {
      parts := [];
      assert Reads(ok, ts, parts) by {
        ReadsNothing(ok);
      }
    } else if MatchAt(ok, ts).Some? {
      var (n, shape) := MatchAt(ok, ts).value;
      MatchedThen(ok, ts);
      var more := ReadsSome(false, ts[n..]);
      parts := [ArrayOf(ts[0].lead, Lits(shape.elems))] + more;
      ReadsArray(ok, ts, shape, ts[n..], more);
    } else {
      var k := Copied(ts);
      var more := ReadsSome(k == 1 && CanWrap(ts[0]), ts[k..]);
      parts := [Kept(ts[..k])] + more;
      ReadsKept(ok, ts, more);
    }
  }

  lemma ReadsNothing(ok: bool)
    ensures Reads(ok, [], [])
  {
  }

  lemma MatchedThen(ok: bool, ts: seq<Lexeme>)
    requires MatchAt(ok, ts).Some?
    ensures var (n, shape) := MatchAt(ok, ts).value;
            2 < n <= |ts| && SpelledThen(ts, ts[0].lead, shape, ts[n..]) && (shape.outer ==> ok)
  {
    hide MatchShape, SymOf;
    MatchSound(Syms(ts));
    OpeningFirst(Syms(ts), MatchAt(ok, ts).value.1);
  }

  lemma ReadsArray(ok: bool, ts: seq<Lexeme>, shape: Shape, rest: seq<Lexeme>, more: seq<Part>)
    requires ts != [] && SpelledThen(ts, ts[0].lead, shape, rest) && (shape.outer ==> ok) && Reads(false, rest, more)
    ensures Reads(ok, ts, [ArrayOf(ts[0].lead, Lits(shape.elems))] + more)
  {
    hide SpelledThen;
    var parts := [ArrayOf(ts[0].lead, Lits(shape.elems))] + more;
    assert parts[1..] == more;
  }

  lemma ReadsKept(ok: bool, ts: seq<Lexeme>, more: seq<Part>)
    requires ts != [] && MatchAt(ok, ts).None? && Reads(Copied(ts) == 1 && CanWrap(ts[0]), ts[Copied(ts)..], more)
    ensures Reads(ok, ts, [Kept(ts[..Copied(ts)])] + more)
  {
    hide Copied, CanWrap, SpelledThen, MatchShape, Spelled, SymOf;
    var parts := [Kept(ts[..Copied(ts)])] + more;
    assert parts[1..] == more;
    forall shape | Spelled(Syms(ts), shape) ensures shape.outer && !ok {
      MatchComplete(Syms(ts), shape);
      SpelledOpens(Syms(ts), shape);
    }
    assert KeptAt(ok, ts, parts[0].tokens);
  }

  lemma SpelledOpens(ss: seq<Sym>, shape: Shape)
    requires Spelled(ss, shape)
    ensures if shape.outer then At(ss, 0, LParen) && At(ss, 1, ArrayWord) else At(ss, 0, ArrayWord)
  {
    hide SpellElems, Ending;
    PrefixSplit(ss, Opening(shape.outer), SpellElems(shape.elems) + Ending(shape));
    assert Opening(shape.outer) <= ss;
    assert ss[0] == Opening(shape.outer)[0];
    assert shape.outer ==> ss[1] == Opening(true)[1];
  }

  // Definitions that read as the same parts have the same normal form: whatever arrays they have and
  // wherever, and in whatever spelling each of them is.
  lemma PartsDecide(d1: string, d2: string, t1: seq<Lexeme>, t2: seq<Lexeme>, parts: seq<Part>, trail: string)
    requires Lex(d1) == Some((t1, trail)) && Reads(true, t1, parts)
    requires Lex(d2) == Some((t2, trail)) && Reads(true, t2, parts)
    ensures Normalize(d1) == Normalize(d2)
  {
    hide Rewrite, Reads;
    ReadsRewritten(true, t1, parts);
    ReadsRewritten(true, t2, parts);
  }

  // ---------------------------------------------------------------- the text around the arrays

  // The text of the parts, with a text of its own for each array after the space before it.
  function Interleave(parts: seq<Part>, spans: seq<string>, trail: string): string
    requires |spans| == |parts|
  {
    if parts == [] then trail
    else (if parts[0].Kept? then Render(parts[0].tokens, "") else parts[0].lead + spans[0])
         + Interleave(parts[1..], spans[1..], trail)
  }

  // The text is a spelling of the array of these literals.
  ghost predicate Spells(span: string, lits: seq<string>) {
    exists a: seq<Lexeme>, shape: Shape ::
      && a != [] && a[0].lead == "" && span == Render(a, "")
      && Valid(shape) && Syms(a) == Spell(shape) && Lits(shape.elems) == lits
  }

  ghost predicate SpansOk(parts: seq<Part>, spans: seq<string>) {
    |spans| == |parts|
      && forall i | 0 <= i < |parts| && parts[i].ArrayOf? :: parts[i].lits != [] && Spells(spans[i], parts[i].lits)
  }

  function CanonicalText(lits: seq<string>): string {
    if lits == [] then "" else Render(Canonical("", lits), "")
  }

  function CanonicalSpans(parts: seq<Part>): (r: seq<string>)
    ensures |r| == |parts|
  {
    if parts == [] then []
    else [if parts[0].Kept? then "" else CanonicalText(parts[0].lits)] + CanonicalSpans(parts[1..])
  }

  lemma RenderTwo(a: seq<Lexeme>, b: seq<Lexeme>, trail: string)
    ensures Render(a + b, trail) == Render(a, "") + Render(b, trail)
  {
    RenderAppend(a, b, trail);
    RenderTrail(a, Render(b, trail));
  }

  // The tokens of a spelled array, without the space before them.
  lemma SpelledText(ts: seq<Lexeme>, lead: string, shape: Shape, rest: seq<Lexeme>, trail: string)
    returns (span: string)
    requires SpelledThen(ts, lead, shape, rest)
    ensures Lits(shape.elems) != [] && Spells(span, Lits(shape.elems))
    ensures Render(ts, trail) == lead + span + Render(rest, trail)
  {
    hide SymOf, SpellElems, Ending, Opening, Lits;
    var n := |Spell(shape)|;
    LitsLength(shape.elems);
    SpelledLength(ts, shape);
    var a := [ts[0].(lead := "")] + ts[1..n];
    span := Render(a, "");
    assert ts == ts[..n] + rest;
    RenderTwo(ts[..n], rest, trail);
    assert ts[..n] == [ts[0]] + ts[1..n];
    assert ts[..n][1..] == ts[1..n] && a[1..] == ts[1..n];
    assert Render(ts[..n], "") == lead + span;
    SymsLead(ts, n);
    assert Syms(a) == Spell(shape);
  }

  lemma SpelledLength(ts: seq<Lexeme>, shape: Shape)
    requires Spelled(Syms(ts), shape)
    ensures 0 < |Spell(shape)| <= |ts|
  {
    hide SymOf, SpellElems, Ending;
  }

  // What a token stands for does not depend on the space before it.
  lemma SymsLead(ts: seq<Lexeme>, n: nat)
    requires 0 < n <= |ts|
    ensures Syms([ts[0].(lead := "")] + ts[1..n]) == Syms(ts)[..n]
  {
    assert SymOf(ts[0].(lead := "")) == SymOf(ts[0]);
  }

  // The text of a definition is that of its parts.
  lemma {:induction false} PartsText(ok: bool, ts: seq<Lexeme>, parts: seq<Part>, trail: string)
    returns (spans: seq<string>)
    requires Reads(ok, ts, parts)
    ensures SpansOk(parts, spans) && Render(ts, trail) == Interleave(parts, spans, trail)
    decreases |parts|
  {
    hide SpelledThen, KeptAt, Copied, CanWrap, Spells, Lits;
    if parts == [] {
      spans := [];
    } else if parts[0].ArrayOf? {
      var shape, rest :| SpelledThen(ts, parts[0].lead, shape, rest) && (shape.outer ==> ok)
                         && Lits(shape.elems) == parts[0].lits && Reads(false, rest, parts[1..]);
      var span := SpelledText(ts, parts[0].lead, shape, rest, trail);
      var more := PartsText(false, rest, parts[1..], trail);
      spans := [span] + more;
      assert spans[1..] == more;
    } else {
      KeptIs(ok, ts, parts[0].tokens);
      var k := |parts[0].tokens|;
      var more := PartsText(k == 1 && CanWrap(ts[0]), ts[k..], parts[1..], trail);
      spans := [""] + more;
      assert spans[1..] == more && ts == parts[0].tokens + ts[k..];
      RenderTwo(parts[0].tokens, ts[k..], trail);
    }
  }

  lemma CanonicalLead(lead: string, lits: seq<string>)
    requires lits != []
    ensures Render(Canonical(lead, lits), "") == lead + CanonicalText(lits)
  {
    hide CanonElems;
    assert Canonical(lead, lits)[1..] == Canonical("", lits)[1..];
  }

  lemma {:induction false} AssembledText(parts: seq<Part>, trail: string)
    requires forall i | 0 <= i < |parts| && parts[i].ArrayOf? :: parts[i].lits != []
    ensures Render(Assemble(parts), trail) == Interleave(parts, CanonicalSpans(parts), trail)
  {
    hide Canonical, CanonicalText;
    if parts != [] {
      AssembledText(parts[1..], trail);
      assert CanonicalSpans(parts)[1..] == CanonicalSpans(parts[1..]);
      if parts[0].Kept? {
        RenderTwo(parts[0].tokens, Assemble(parts[1..]), trail);
      } else {
        RenderTwo(Canonical(parts[0].lead, parts[0].lits), Assemble(parts[1..]), trail);
        CanonicalLead(parts[0].lead, parts[0].lits);
      }
    }
  }

  // Every definition that tokenizes is kept text with spelled arrays between, and its normal form is the
  // same kept text, character by character, with the canonical spelling of each array in its place.
  lemma OutsideCopied(definition: string) returns (parts: seq<Part>, spans: seq<string>, trail: string)
    requires Lex(definition).Some?
    ensures Reads(true, Lex(definition).value.0, parts) && SpansOk(parts, spans)
    ensures definition == Interleave(parts, spans, trail)
    ensures Normalize(definition) == Interleave(parts, CanonicalSpans(parts), trail)
  {
    hide Reads, Rewrite, Spells, Interleave, LexFrom;
    var ts;
    ts, trail := Lex(definition).value.0, Lex(definition).value.1;
    LexScans("", definition);
    assert "" + definition == definition;
    parts := ReadsSome(true, ts);
    spans := PartsText(true, ts, parts, trail);
    ReadsRewritten(true, ts, parts);
    AssembledText(parts, trail);
  }
}
