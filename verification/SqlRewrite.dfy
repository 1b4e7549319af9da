// The rewriting of catalog definitions on lexemes, and why doing it twice changes nothing more.
module SqlRewrite {
  import opened Wrappers
  import opened SqlLexer
  import opened SqlArrays

  function WordSym(value: string): Sym {
    if value == "array" then ArrayWord
    else if value == "character" then Character
    else if value == "varying" then Varying
    else if value == "text" then TextWord
    else Other
  }

  function PunctSym(value: string): Sym {
    if value == "(" then LParen
    else if value == ")" then RParen
    else if value == "[" then LBracket
    else if value == "]" then RBracket
    else if value == "," then Comma
    else if value == "::" then Cast
    else Other
  }

  function SymOf(l: Lexeme): Sym {
    match l.kind
    case Literal => Lit(l.text)
    case Quoted => Other
    case Word => WordSym(Value(l))
    case Symbol => PunctSym(l.text)
  }

  function Syms(ts: seq<Lexeme>): (r: seq<Sym>)
    ensures |r| == |ts|
    ensures forall i | 0 <= i < |ts| :: r[i] == SymOf(ts[i])
  {
    seq(|ts|, i requires 0 <= i < |ts| => SymOf(ts[i]))
  }

  // ---------------------------------------------------------------- canonical form

  const CAST := Lexeme("", Symbol, "::")

  function CanonElem(lit: string): seq<Lexeme> {
    [Lexeme("", Literal, lit), CAST, Lexeme("", Word, "character"), Lexeme(" ", Word, "varying"), CAST,
     Lexeme("", Word, "text")]
  }

  function CanonElems(lits: seq<string>): seq<Lexeme>
    requires lits != []
  {
    CanonElem(lits[0])
    + if |lits| == 1 then [Lexeme("", Symbol, "]")] else [Lexeme("", Symbol, ",")] + CanonElems(lits[1..])
  }

  function Canonical(lead: string, lits: seq<string>): seq<Lexeme>
    requires lits != []
  {
    [Lexeme(lead, Word, "ARRAY"), Lexeme("", Symbol, "[")] + CanonElems(lits)
  }

  // The elements the canonical form spells.
  function Coerced(lits: seq<string>): (r: seq<Elem>)
    ensures |r| == |lits|
    ensures forall i | 0 <= i < |r| :: r[i] == Elem(false, true, lits[i])
  {
    seq(|lits|, i requires 0 <= i < |lits| => Elem(false, true, lits[i]))
  }

  // ---------------------------------------------------------------- rewriting

  // An array may start here: at its word, or at a '(' that no name or value precedes.
  function MatchAt(ok: bool, ts: seq<Lexeme>): (r: Option<(nat, Shape)>)
    ensures r.Some? ==> 2 < r.value.0 <= |ts| && r.value.1.elems != [] && r == MatchShape(Syms(ts))
  {
    var ss := Syms(ts);
    if At(ss, 0, ArrayWord) || (ok && At(ss, 0, LParen) && At(ss, 1, ArrayWord)) then
      if MatchShape(ss).Some? then MatchSound(ss); MatchShape(ss) else None
    else None
  }

  // Tokens copied when nothing is recognised: an unsupported array is copied as a whole.
  function Copied(ts: seq<Lexeme>): (r: nat)
    requires ts != []
    ensures 0 < r <= |ts|
  {
    var ss := Syms(ts);
    if At(ss, 0, ArrayWord) && At(ss, 1, LBracket) then 1 + Skip(ss[1..], 0) else 1
  }

  // `ok`: a '(' here may belong to an array cast.
  function Rewrite(ok: bool, ts: seq<Lexeme>): seq<Lexeme>
    decreases |ts|
  {
    if ts == [] then []
    else
      match MatchAt(ok, ts)
      case Some((n, shape)) =>
        LitsLength(shape.elems);
        Canonical(ts[0].lead, Lits(shape.elems)) + Rewrite(false, ts[n..])
      case None =>
        var k := Copied(ts);
        ts[..k] + Rewrite(k == 1 && CanWrap(ts[0]), ts[k..])
  }

  function Normalize(definition: string): string {
    match Lex(definition)
    case None => definition
    case Some((ts, trail)) => Render(Rewrite(true, ts), trail)
  }

  lemma RewriteStep(ok: bool, ts: seq<Lexeme>)
    requires ts != []
    ensures MatchAt(ok, ts).Some? ==>
              var (n, shape) := MatchAt(ok, ts).value;
              Lits(shape.elems) != []
                && Rewrite(ok, ts) == Canonical(ts[0].lead, Lits(shape.elems)) + Rewrite(false, ts[n..])
    ensures MatchAt(ok, ts).None? ==>
              var k := Copied(ts);
              Rewrite(ok, ts) == ts[..k] + Rewrite(k == 1 && CanWrap(ts[0]), ts[k..])
  {
    hide Copied, MatchAt, CanWrap, Canonical;
    if MatchAt(ok, ts).Some? {
      LitsLength(MatchAt(ok, ts).value.1.elems);
    }
  }

  lemma LitsLength(es: seq<Elem>)
    ensures |Lits(es)| == |es|
    ensures forall i | 0 <= i < |es| :: Lits(es)[i] == es[i].lit
  {
  }

  lemma SymsAppend(a: seq<Lexeme>, b: seq<Lexeme>)
    ensures Syms(a + b) == Syms(a) + Syms(b)
  {
    hide SymOf;
  }

  lemma {:induction false} CanonSyms(lits: seq<string>)
    requires lits != []
    ensures Syms(CanonElems(lits)) == SpellElems(Coerced(lits))
  {
    hide SpellElems, CanonElems;
    var es := Coerced(lits);
    assert Syms(CanonElem(lits[0])) == SpellElem(es[0]) by { CanonElemSyms(lits[0]); }
    if |lits| == 1 {
      assert CanonElems(lits) == CanonElem(lits[0]) + [Lexeme("", Symbol, "]")] by { CanonElemsDef(lits); }
      SymsAppend(CanonElem(lits[0]), [Lexeme("", Symbol, "]")]);
      assert SpellElems(es) == SpellElem(es[0]) + [RBracket] by { SpellElemsDef(es); }
      PunctSyms();
      assert Syms([Lexeme("", Symbol, "]")]) == [RBracket];
    } else {
      var comma := [Lexeme("", Symbol, ",")];
      CanonSyms(lits[1..]);
      assert Coerced(lits[1..]) == es[1..];
      assert CanonElems(lits) == CanonElem(lits[0]) + (comma + CanonElems(lits[1..])) by { CanonElemsDef(lits); }
      SymsAppend(CanonElem(lits[0]), comma + CanonElems(lits[1..]));
      SymsAppend(comma, CanonElems(lits[1..]));
      assert SpellElems(es) == SpellElem(es[0]) + ([Comma] + SpellElems(es[1..])) by { SpellElemsDef(es); }
      PunctSyms();
      assert Syms(comma) == [Comma];
    }
  }

  lemma CanonElemsDef(lits: seq<string>)
    requires lits != []
    ensures CanonElems(lits) == CanonElem(lits[0])
            + if |lits| == 1 then [Lexeme("", Symbol, "]")] else [Lexeme("", Symbol, ",")] + CanonElems(lits[1..])
  {
  }

  lemma SpellElemsDef(es: seq<Elem>)
    requires es != []
    ensures SpellElems(es) == SpellElem(es[0]) + if |es| == 1 then [RBracket] else [Comma] + SpellElems(es[1..])
  {
  }

  lemma PunctSyms()
    ensures SymOf(Lexeme("", Symbol, "]")) == RBracket
    ensures SymOf(Lexeme("", Symbol, ",")) == Comma
    ensures SymOf(Lexeme("", Symbol, "[")) == LBracket
    ensures SymOf(CAST) == Cast
    ensures forall lead :: SymOf(Lexeme(lead, Word, "ARRAY")) == ArrayWord
    ensures SymOf(Lexeme("", Word, "character")) == Character
    ensures SymOf(Lexeme(" ", Word, "varying")) == Varying
    ensures SymOf(Lexeme("", Word, "text")) == TextWord
  {
    assert Lower("ARRAY") == "array";
    assert Lower("character") == "character";
    assert Lower("varying") == "varying";
    assert Lower("text") == "text";
  }

  lemma CanonElemSyms(lit: string)
    ensures Syms(CanonElem(lit)) == SpellElem(Elem(false, true, lit))
  {
    PunctSyms();
    hide WordSym, PunctSym;
  }

  lemma CanonicalSyms(lead: string, lits: seq<string>, rest: seq<Lexeme>)
    requires lits != []
    ensures Syms(Canonical(lead, lits) + rest) == [ArrayWord, LBracket] + (SpellElems(Coerced(lits)) + Syms(rest))
  {
    hide SpellElems, CanonElems;
    var open := [Lexeme(lead, Word, "ARRAY"), Lexeme("", Symbol, "[")];
    assert Canonical(lead, lits) + rest == open + (CanonElems(lits) + rest);
    SymsAppend(open, CanonElems(lits) + rest);
    SymsAppend(CanonElems(lits), rest);
    CanonSyms(lits);
    PunctSyms();
    assert Syms(open) == [ArrayWord, LBracket];
  }

  // After the opening bracket of a canonical form: it can be matched only without parentheses,
  // only when no further cast follows, and it is skipped as a whole.
  lemma CanonicalRest(lits: seq<string>, after: seq<Sym>)
    requires lits != []
    ensures var w, es := SpellElems(Coerced(lits)), Coerced(lits);
            && MatchRest(true, w + after) == None
            && MatchRest(false, w + after) == (if At(after, 0, Cast) then None else Some((|w|, Shape(false, es))))
            && Skip(w + after, 1) == |w|
  {
    hide SpellElems, Elements, Skip;
    var w, es := SpellElems(Coerced(lits)), Coerced(lits);
    ElementsComplete(w + after, es);
    ElementsSkip(w + after);
    assert (w + after)[|w|..] == after;
    assert es[0].coerced;
  }

  lemma CoercedLits(lits: seq<string>)
    ensures Lits(Coerced(lits)) == lits
  {
    LitsLength(Coerced(lits));
  }

  // Rewriting keeps a canonical form at the front, whether or not it recognises it.
  lemma CanonicalKept(ok: bool, lead: string, lits: seq<string>, rest: seq<Lexeme>)
    requires lits != []
    ensures Rewrite(ok, Canonical(lead, lits) + rest) == Canonical(lead, lits) + Rewrite(false, rest)
  {
    hide SymOf, SpellElems, CanonElems, MatchRest, Skip;
    var ts := Canonical(lead, lits) + rest;
    var w, es := SpellElems(Coerced(lits)), Coerced(lits);
    var ss := Syms(ts);
    CanonicalSyms(lead, lits, rest);
    CanonicalRest(lits, Syms(rest));
    CanonSyms(lits);
    CoercedLits(lits);
    assert ss[2..] == w + Syms(rest);
    assert ss[0] == ArrayWord && ss[1] == LBracket;
    assert |Canonical(lead, lits)| == 2 + |w|;
    assert ts[..2 + |w|] == Canonical(lead, lits) && ts[2 + |w|..] == rest;
    if At(Syms(rest), 0, Cast) {
      SkipOpen(ss);
      assert ss[1..][1..] == ss[2..];
    }
  }

  lemma SkipOpen(ss: seq<Sym>)
    requires |ss| > 1 && ss[1] == LBracket
    ensures Skip(ss[1..], 0) == 1 + Skip(ss[2..], 1)
  {
    assert ss[1..][1..] == ss[2..];
  }

  // ---------------------------------------------------------------- idempotence

  // A token that starts no array is kept, and a token that may start one stays of that sort.
  lemma Head(ok: bool, ts: seq<Lexeme>)
    ensures ts == [] <==> Rewrite(ok, ts) == []
    ensures ts != [] && SymOf(ts[0]) !in {ArrayWord, LParen} ==>
              Rewrite(ok, ts) == [ts[0]] + Rewrite(CanWrap(ts[0]), ts[1..])
    ensures ts != [] && SymOf(ts[0]) in {ArrayWord, LParen} ==> SymOf(Rewrite(ok, ts)[0]) in {ArrayWord, LParen}
  {
    hide SymOf, SpellElems, CanonElems, MatchShape, Skip;
    PunctSyms();
    if ts != [] {
      assert Syms(ts)[0] == SymOf(ts[0]);
    }
  }

  lemma HeadAt(ok: bool, ts: seq<Lexeme>, s: Sym)
    requires s !in {ArrayWord, LParen}
    ensures At(Syms(Rewrite(ok, ts)), 0, s) == At(Syms(ts), 0, s)
  {
    hide SymOf, Rewrite, MatchShape;
    Head(ok, ts);
  }

  lemma {:induction false} EndingStable(w: seq<Sym>, ok: bool, ts: seq<Lexeme>)
    requires forall s | s in w :: s !in {ArrayWord, LParen}
    ensures w <= Syms(Rewrite(ok, ts)) <==> w <= Syms(ts)
  {
    hide SymOf, Rewrite, MatchShape;
    if w != [] {
      assert w[0] in w && forall s | s in w[1..] :: s in w;
      Head(ok, ts);
      var r := Rewrite(ok, ts);
      if ts != [] && SymOf(ts[0]) !in {ArrayWord, LParen} {
        EndingStable(w[1..], CanWrap(ts[0]), ts[1..]);
        assert Syms(ts)[1..] == Syms(ts[1..]);
        assert r[1..] == Rewrite(CanWrap(ts[0]), ts[1..]);
        assert Syms(r)[1..] == Syms(r[1..]);
        Uncons(w, Syms(ts));
        Uncons(w, Syms(r));
      } else if ts != [] {
        assert Syms(ts)[0] == SymOf(ts[0]) && Syms(r)[0] == SymOf(r[0]);
      }
    }
  }

  lemma Uncons(w: seq<Sym>, ss: seq<Sym>)
    requires w != [] && ss != []
    ensures w <= ss <==> w[0] == ss[0] && w[1..] <= ss[1..]
  {
    PrefixSplit(ss, [w[0]], w[1..]);
    assert [w[0]] + w[1..] == w;
  }

  lemma ClosingStable(outer: bool, es: seq<Elem>, ok: bool, ts: seq<Lexeme>)
    ensures Closing(outer, es, Syms(Rewrite(ok, ts))) == Closing(outer, es, Syms(ts))
  {
    hide SymOf, Rewrite, MatchShape, Closing;
    var shape := Shape(outer, es);
    EndingStable(Ending(shape), ok, ts);
    HeadAt(ok, ts, Cast);
    ClosingRead(Syms(ts), shape);
    ClosingRead(Syms(Rewrite(ok, ts)), shape);
  }

  // Rewriting what follows an array that was copied does not make it recognisable.
  lemma RestStable(outer: bool, x: seq<Sym>, ok: bool, ts: seq<Lexeme>)
    requires Skip(x, 1) < |x| || ts == []
    requires Skip(x, 1) + |ts| == |x| && x[Skip(x, 1)..] == Syms(ts)
    ensures var y := x[..Skip(x, 1)] + Syms(Rewrite(ok, ts));
            Skip(y, 1) == Skip(x, 1) && MatchRest(outer, y) == MatchRest(outer, x)
  {
    hide SymOf, Rewrite, MatchShape, Closing, Skip, Elements;
    var n := Skip(x, 1);
    var y := x[..n] + Syms(Rewrite(ok, ts));
    Head(ok, ts);
    if ts == [] {
      assert y == x;
    } else {
      assert x[..n] == y[..n];
      assert y[n..] == Syms(Rewrite(ok, ts));
      SkipLocal(x, y, 1);
      if Elements(x).Some? {
        ElementsSkip(x);
        ElementsLocal(x, y);
      } else if Elements(y).Some? {
        ElementsSkip(y);
        ElementsLocal(y, x);
      }
      if Elements(x).Some? {
        ClosingStable(outer, Elements(x).value.1, ok, ts);
      }
    }
  }

  lemma CopiedArray(ts: seq<Lexeme>)
    requires At(Syms(ts), 0, ArrayWord) && At(Syms(ts), 1, LBracket)
    ensures Copied(ts) == 2 + Skip(Syms(ts)[2..], 1)
  {
    hide SymOf, Skip;
    SkipOpen(Syms(ts));
  }

  lemma SpliceAfterTwo(ss: seq<Sym>, k: nat, r: seq<Sym>)
    requires 2 <= k <= |ss|
    ensures ss[2..][k - 2..] == ss[k..]
    ensures (ss[..k] + r)[2..] == ss[2..][..k - 2] + r
    ensures (ss[..k] + r)[0] == ss[0] && (ss[..k] + r)[1] == ss[1]
  {
  }

  // An array copied as a whole, alone or after an opening parenthesis, is copied again.
  lemma ArrayStable(ok: bool, ts: seq<Lexeme>)
    requires At(Syms(ts), 0, ArrayWord) && At(Syms(ts), 1, LBracket)
    ensures var k := Copied(ts);
            var o := ts[..k] + Rewrite(ok, ts[k..]);
            && At(Syms(o), 0, ArrayWord) && At(Syms(o), 1, LBracket) && Copied(o) == k
            && MatchRest(false, Syms(o)[2..]) == MatchRest(false, Syms(ts)[2..])
            && MatchRest(true, Syms(o)[2..]) == MatchRest(true, Syms(ts)[2..])
  {
    hide SymOf, Rewrite, MatchShape, MatchRest, Skip, Elements, Copied;
    var k := Copied(ts);
    var ss, b := Syms(ts), ts[k..];
    CopiedArray(ts);
    var x := ss[2..];
    var y := x[..k - 2] + Syms(Rewrite(ok, b));
    var o := ts[..k] + Rewrite(ok, b);
    SymsSplice(ts, k, Rewrite(ok, b));
    SpliceAfterTwo(ss, k, Syms(Rewrite(ok, b)));
    assert Syms(o)[2..] == y;
    assert x[k - 2..] == Syms(b) && At(Syms(o), 0, ArrayWord) && At(Syms(o), 1, LBracket);
    RestStable(false, x, ok, b);
    RestStable(true, x, ok, b);
    CopiedArray(o);
  }

  lemma SymsSplice(ts: seq<Lexeme>, k: nat, r: seq<Lexeme>)
    requires k <= |ts|
    ensures Syms(ts[..k] + r) == Syms(ts)[..k] + Syms(r)
    ensures Syms(ts)[k..] == Syms(ts[k..])
  {
    hide SymOf;
  }

  lemma MatchAtArray(ok: bool, ts: seq<Lexeme>)
    ensures At(Syms(ts), 0, ArrayWord) ==>
              (MatchAt(ok, ts).None? <==> At(Syms(ts), 1, LBracket) ==> MatchRest(false, Syms(ts)[2..]).None?)
    ensures At(Syms(ts), 0, LParen) ==>
              (MatchAt(ok, ts).None? <==> ok && At(Syms(ts), 1, ArrayWord) && At(Syms(ts), 2, LBracket) ==>
                 MatchRest(true, Syms(ts)[3..]).None?)
    ensures !At(Syms(ts), 0, LParen) && !At(Syms(ts), 0, ArrayWord) ==> MatchAt(ok, ts).None?
  {
    hide SymOf, MatchRest;
    var ss := Syms(ts);
    assert Opening(true) <= ss <==> At(ss, 0, LParen) && At(ss, 1, ArrayWord) && At(ss, 2, LBracket);
    assert Opening(false) <= ss <==> At(ss, 0, ArrayWord) && At(ss, 1, LBracket);
  }

  // What was copied at the front is copied again.
  lemma CopiedAgain(ok: bool, ts: seq<Lexeme>)
    requires ts != [] && MatchAt(ok, ts).None?
    ensures var k := Copied(ts);
            var o := ts[..k] + Rewrite(k == 1 && CanWrap(ts[0]), ts[k..]);
            MatchAt(ok, o).None? && Copied(o) == k
  {
    hide SymOf, MatchAt, Rewrite, MatchShape, MatchRest, Skip, CanWrap;
    var k := Copied(ts);
    var wrap := k == 1 && CanWrap(ts[0]);
    var o := ts[..k] + Rewrite(wrap, ts[k..]);
    var ss := Syms(ts);
    assert ss[0] == SymOf(ts[0]) == Syms(o)[0];
    MatchAtArray(ok, ts);
    MatchAtArray(ok, o);
    if ss[0] == ArrayWord {
      if At(ss, 1, LBracket) {
        ArrayStable(wrap, ts);
      } else {
        HeadAt(wrap, ts[1..], LBracket);
        assert Syms(o)[1..] == Syms(o[1..]) && Syms(ts)[1..] == Syms(ts[1..]);
        assert At(Syms(o), 1, LBracket) == At(Syms(o[1..]), 0, LBracket);
        assert o[1..] == Rewrite(wrap, ts[1..]);
      }
    } else {
      assert k == 1 && ts[..1] == [ts[0]];
      if ss[0] == LParen && ok {
        ParenCopied(ts);
        assert o == [ts[0]] + Rewrite(CanWrap(ts[0]), ts[1..]);
      }
    }
  }

  lemma ParenCanWrap(t: Lexeme)
    requires SymOf(t) == LParen
    ensures CanWrap(t)
  {
  }

  lemma ParenCopied(ts: seq<Lexeme>)
    requires At(Syms(ts), 0, LParen) && MatchAt(true, ts).None?
    ensures MatchAt(true, [ts[0]] + Rewrite(CanWrap(ts[0]), ts[1..])).None?
  {
    hide SymOf, MatchAt, MatchShape, MatchRest, Skip, CanWrap, SpellElems, CanonElems;
    assert Syms(ts)[0] == SymOf(ts[0]);
    ParenCanWrap(ts[0]);
    var t1 := ts[1..];
    var r := Rewrite(true, t1);
    var o := [ts[0]] + r;
    MatchAtArray(true, o);
    MatchAtArray(true, ts);
    assert Syms(o) == [LParen] + Syms(r);
    assert Syms(ts) == [LParen] + Syms(t1);
    if At(Syms(r), 0, ArrayWord) && At(Syms(r), 1, LBracket) {
      assert Syms(o)[3..] == Syms(r)[2..];
      if MatchAt(true, t1).Some? {
        var (n, shape) := MatchAt(true, t1).value;
        LitsLength(shape.elems);
        var lits := Lits(shape.elems);
        CanonicalSyms(t1[0].lead, lits, Rewrite(false, t1[n..]));
        CanonicalRest(lits, Syms(Rewrite(false, t1[n..])));
        assert Syms(r)[2..] == SpellElems(Coerced(lits)) + Syms(Rewrite(false, t1[n..]));
      } else {
        Head(true, t1);
        assert r[0] == t1[0];
        assert Syms(t1)[0] == SymOf(t1[0]) == Syms(r)[0];
        if At(Syms(t1), 1, LBracket) {
          ArrayStable(false, t1);
          assert Syms(ts)[3..] == Syms(t1)[2..];
        } else {
          HeadAt(CanWrap(t1[0]), t1[1..], LBracket);
          assert false;
        }
      }
    }
  }

  lemma {:induction false} RewriteIdempotent(ok: bool, ts: seq<Lexeme>)
    ensures Rewrite(ok, Rewrite(ok, ts)) == Rewrite(ok, ts)
    decreases |ts|
  {
    hide SymOf, MatchAt, MatchShape, MatchRest, Skip, CanWrap, SpellElems, CanonElems, Copied;
    if ts != [] {
      if MatchAt(ok, ts).Some? {
        var (n, shape) := MatchAt(ok, ts).value;
        LitsLength(shape.elems);
        RewriteIdempotent(false, ts[n..]);
        CanonicalKept(ok, ts[0].lead, Lits(shape.elems), Rewrite(false, ts[n..]));
      } else {
        var k := Copied(ts);
        var wrap := k == 1 && CanWrap(ts[0]);
        var r := Rewrite(wrap, ts[k..]);
        var o := ts[..k] + r;
        RewriteIdempotent(wrap, ts[k..]);
        CopiedAgain(ok, ts);
        assert o[..k] == ts[..k] && o[k..] == r && o[0] == ts[0];
      }
    }
  }
}
