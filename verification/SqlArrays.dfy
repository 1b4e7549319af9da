// Recognising an array of varchar literals cast to text, as a recursive parser over symbols
// and, independently, as a grammar of spellings; the two are proved to agree.
module SqlArrays {
  import opened Wrappers

  // A token as the recogniser sees it: quoted text is never one of the fixed symbols.
  datatype Sym =
    | Lit(text: string)
    | ArrayWord | LParen | RParen | LBracket | RBracket | Comma | Cast | Character | Varying | TextWord
    | Other

  predicate At(ss: seq<Sym>, i: nat, s: Sym) {
    i < |ss| && ss[i] == s
  }

  // ---------------------------------------------------------------- spellings

  // One array element as written: in parentheses or not, cast to text or not.
  datatype Elem = Elem(paren: bool, coerced: bool, lit: string)

  // A whole array: in parentheses or not.
  datatype Shape = Shape(outer: bool, elems: seq<Elem>)

  function SpellElem(e: Elem): (r: seq<Sym>)
    ensures |r| >= 4
  {
    (if e.paren then [LParen] else [])
    + [Lit(e.lit), Cast, Character, Varying]
    + (if e.paren then [RParen] else [])
    + (if e.coerced then [Cast, TextWord] else [])
  }

  function SpellElems(es: seq<Elem>): seq<Sym>
    requires es != []
  {
    SpellElem(es[0]) + if |es| == 1 then [RBracket] else [Comma] + SpellElems(es[1..])
  }

  predicate AnyCoerced(es: seq<Elem>) {
    exists i | 0 <= i < |es| :: es[i].coerced
  }

  predicate AllCoerced(es: seq<Elem>) {
    forall i | 0 <= i < |es| :: es[i].coerced
  }

  // The casts agree: on every element or else at the end; array parentheses only with the latter.
  predicate Valid(shape: Shape) {
    && shape.elems != []
    && (AnyCoerced(shape.elems) ==> AllCoerced(shape.elems) && !shape.outer)
  }

  function Opening(outer: bool): seq<Sym> {
    if outer then [LParen, ArrayWord, LBracket] else [ArrayWord, LBracket]
  }

  function Ending(shape: Shape): seq<Sym> {
    (if shape.outer then [RParen] else [])
    + (if AnyCoerced(shape.elems) then [] else [Cast, TextWord, LBracket, RBracket])
  }

  function Spell(shape: Shape): seq<Sym>
    requires shape.elems != []
  {
    Opening(shape.outer) + (SpellElems(shape.elems) + Ending(shape))
  }

  function Lits(es: seq<Elem>): seq<string> {
    if es == [] then [] else [es[0].lit] + Lits(es[1..])
  }

  // `ss` begins with this spelling, and no further cast follows casts of the elements.
  ghost predicate Spelled(ss: seq<Sym>, shape: Shape) {
    && Valid(shape)
    && Spell(shape) <= ss
    && (AnyCoerced(shape.elems) ==> !At(ss, |Spell(shape)|, Cast))
  }

  // ---------------------------------------------------------------- recogniser

  function Element(ss: seq<Sym>): (r: Option<(nat, Elem)>)
    ensures r.Some? ==> 0 < r.value.0 <= |ss|
  {
    var paren := At(ss, 0, LParen);
    var p := if paren then 1 else 0;
    if p < |ss| && ss[p].Lit?
       && At(ss, p + 1, Cast) && At(ss, p + 2, Character) && At(ss, p + 3, Varying)
       && (paren ==> At(ss, p + 4, RParen))
    then
      var q := if paren then p + 5 else p + 4;
      if !At(ss, q, Cast) then Some((q, Elem(paren, false, ss[p].text)))
      else if At(ss, q + 1, TextWord) then Some((q + 2, Elem(paren, true, ss[p].text)))
      else None
    else None
  }

  // Elements up to and including the closing bracket.
  function Elements(ss: seq<Sym>): (r: Option<(nat, seq<Elem>)>)
    ensures r.Some? ==> 0 < r.value.0 <= |ss| && r.value.1 != []
    decreases |ss|
  {
    match Element(ss)
    case None => None
    case Some((n, e)) =>
      if At(ss, n, RBracket) then Some((n + 1, [e]))
      else if !At(ss, n, Comma) then None
      else
        match Elements(ss[n + 1..])
        case None => None
        case Some((m, es)) => Some((n + 1 + m, [e] + es))
  }

  // How many symbols after the closing bracket belong to the array.
  function Closing(outer: bool, es: seq<Elem>, ss: seq<Sym>): (r: Option<nat>)
    ensures r.Some? ==> r.value <= |ss|
  {
    var q := if outer then 1 else 0;
    if outer && !At(ss, 0, RParen) then None
    else if !AnyCoerced(es) then
      if At(ss, q, Cast) && At(ss, q + 1, TextWord) && At(ss, q + 2, LBracket) && At(ss, q + 3, RBracket)
      then Some(q + 4) else None
    else if !AllCoerced(es) || outer || At(ss, q, Cast) then None
    else Some(q)
  }

  // From just after the opening bracket.
  function MatchRest(outer: bool, ss: seq<Sym>): (r: Option<(nat, Shape)>)
    ensures r.Some? ==> 0 < r.value.0 <= |ss|
  {
    match Elements(ss)
    case None => None
    case Some((n, es)) =>
      match Closing(outer, es, ss[n..])
      case None => None
      case Some(m) => Some((n + m, Shape(outer, es)))
  }

  function MatchShape(ss: seq<Sym>): (r: Option<(nat, Shape)>)
    ensures r.Some? ==> 2 < r.value.0 <= |ss|
  {
    var outer := At(ss, 0, LParen);
    if Opening(outer) <= ss then
      match MatchRest(outer, ss[|Opening(outer)|..])
      case None => None
      case Some((n, shape)) => Some((|Opening(outer)| + n, shape))
    else None
  }

  // ---------------------------------------------------------------- recogniser = grammar

  lemma PrefixSplit(ss: seq<Sym>, a: seq<Sym>, b: seq<Sym>)
    ensures a + b <= ss <==> a <= ss && b <= ss[|a|..]
  {
    if a + b <= ss {
      assert forall i | 0 <= i < |a| :: (a + b)[i] == a[i];
      assert forall i | 0 <= i < |b| :: (a + b)[|a| + i] == b[i];
    }
    if a <= ss && b <= ss[|a|..] {
      assert ss == a + (b + ss[|a|..][|b|..]);
    }
  }

  lemma ElementSound(ss: seq<Sym>)
    requires Element(ss).Some?
    ensures var (n, e) := Element(ss).value; SpellElem(e) <= ss && n == |SpellElem(e)|
  {
  }

  lemma ElementComplete(ss: seq<Sym>, e: Elem)
    requires SpellElem(e) <= ss
    requires !e.coerced ==> !At(ss, |SpellElem(e)|, Cast)
    ensures Element(ss) == Some((|SpellElem(e)|, e))
  {
    var w := SpellElem(e);
    var p := if e.paren then 1 else 0;
    assert w[p] == Lit(e.lit) && w[p + 1] == Cast && w[p + 2] == Character && w[p + 3] == Varying;
    assert e.paren ==> w[p + 4] == RParen;
    var q := if e.paren then p + 5 else p + 4;
    assert e.coerced ==> w[q] == Cast && w[q + 1] == TextWord;
  }

  // What follows an element in a spelling.
  function AfterElem(es: seq<Elem>): seq<Sym>
    requires es != []
  {
    if |es| == 1 then [RBracket] else [Comma] + SpellElems(es[1..])
  }

  lemma {:induction false} ElementsSound(ss: seq<Sym>)
    requires Elements(ss).Some?
    ensures var (n, es) := Elements(ss).value; SpellElems(es) <= ss && n == |SpellElems(es)|
    decreases |ss|
  {
    hide Element, SpellElem;
    ElementSound(ss);
    var (n, e) := Element(ss).value;
    var (k, es) := Elements(ss).value;
    if !At(ss, n, RBracket) {
      ElementsSound(ss[n + 1..]);
      assert es[1..] == Elements(ss[n + 1..]).value.1;
      assert ss[n..][1..] == ss[n + 1..];
      PrefixSplit(ss[n..], [Comma], SpellElems(es[1..]));
    }
    assert AfterElem(es) <= ss[n..];
    PrefixSplit(ss, SpellElem(e), AfterElem(es));
  }

  lemma ElementsStep(ss: seq<Sym>, n: nat, es: seq<Elem>)
    requires es != [] && Element(ss) == Some((n, es[0]))
    requires AfterElem(es) <= ss[n..]
    requires |es| > 1 ==> Elements(ss[n + 1..]) == Some((|AfterElem(es)| - 1, es[1..]))
    ensures Elements(ss) == Some((n + |AfterElem(es)|, es))
  {
    hide Element, SpellElem;
    if |es| == 1 {
      assert es == [es[0]];
      assert ss[n..][0] == RBracket;
    } else {
      assert ss[n..][0] == AfterElem(es)[0] == Comma;
      assert es == [es[0]] + es[1..];
    }
  }

  lemma ElementBefore(ss: seq<Sym>, es: seq<Elem>)
    requires es != [] && SpellElem(es[0]) <= ss && AfterElem(es) <= ss[|SpellElem(es[0])|..]
    ensures Element(ss) == Some((|SpellElem(es[0])|, es[0]))
  {
    hide Element, SpellElem;
    assert ss[|SpellElem(es[0])|] == ss[|SpellElem(es[0])|..][0] == AfterElem(es)[0];
    ElementComplete(ss, es[0]);
  }

  lemma {:induction false} ElementsComplete(ss: seq<Sym>, es: seq<Elem>)
    requires es != [] && SpellElems(es) <= ss
    ensures Elements(ss) == Some((|SpellElems(es)|, es))
    decreases |es|
  {
    hide Element, SpellElem, Elements;
    var n := |SpellElem(es[0])|;
    PrefixSplit(ss, SpellElem(es[0]), AfterElem(es));
    ElementBefore(ss, es);
    if |es| > 1 {
      PrefixSplit(ss[n..], [Comma], SpellElems(es[1..]));
      assert ss[n..][1..] == ss[n + 1..];
      ElementsComplete(ss[n + 1..], es[1..]);
    }
    ElementsStep(ss, n, es);
  }

  lemma ClosingRead(ss: seq<Sym>, shape: Shape)
    ensures (Closing(shape.outer, shape.elems, ss) == Some(|Ending(shape)|)
             <==> && Ending(shape) <= ss
                  && (AnyCoerced(shape.elems) ==> AllCoerced(shape.elems) && !shape.outer && !At(ss, 0, Cast)))
    ensures Closing(shape.outer, shape.elems, ss) in {None, Some(|Ending(shape)|)}
  {
    var q, w := if shape.outer then 1 else 0, Ending(shape);
    if !AnyCoerced(shape.elems) {
      assert w[q] == Cast && w[q + 1] == TextWord && w[q + 2] == LBracket && w[q + 3] == RBracket;
    }
  }

  lemma RestSound(outer: bool, ss: seq<Sym>)
    requires MatchRest(outer, ss).Some?
    ensures var (n, shape) := MatchRest(outer, ss).value;
            var w := SpellElems(shape.elems) + Ending(shape);
            && shape.outer == outer && Valid(shape) && w <= ss && n == |w|
            && (AnyCoerced(shape.elems) ==> !At(ss, n, Cast))
  {
    hide Elements, SpellElems, Closing;
    var shape := MatchRest(outer, ss).value.1;
    ElementsSound(ss);
    ClosingRead(ss[|SpellElems(shape.elems)|..], shape);
    PrefixSplit(ss, SpellElems(shape.elems), Ending(shape));
  }

  lemma RestComplete(shape: Shape, ss: seq<Sym>)
    requires Valid(shape) && SpellElems(shape.elems) + Ending(shape) <= ss
    requires AnyCoerced(shape.elems) ==> !At(ss, |SpellElems(shape.elems) + Ending(shape)|, Cast)
    ensures MatchRest(shape.outer, ss) == Some((|SpellElems(shape.elems) + Ending(shape)|, shape))
  {
    hide Elements, SpellElems, Closing;
    var b, c := SpellElems(shape.elems), Ending(shape);
    PrefixSplit(ss, b, c);
    ElementsComplete(ss, shape.elems);
    assert Closing(shape.outer, shape.elems, ss[|b|..]) == Some(|c|) by {
      assert c == [] ==> At(ss[|b|..], 0, Cast) == At(ss, |b|, Cast);
      ClosingRead(ss[|b|..], shape);
    }
  }

  lemma MatchSound(ss: seq<Sym>)
    requires MatchShape(ss).Some?
    ensures var (n, shape) := MatchShape(ss).value; Spelled(ss, shape) && n == |Spell(shape)|
  {
    hide MatchRest, SpellElems, Ending;
    var outer := At(ss, 0, LParen);
    var (k, shape) := MatchShape(ss).value;
    RestSound(outer, ss[|Opening(outer)|..]);
    PrefixSplit(ss, Opening(outer), SpellElems(shape.elems) + Ending(shape));
    assert At(ss[|Opening(outer)|..], k - |Opening(outer)|, Cast) == At(ss, k, Cast);
  }

  lemma MatchComplete(ss: seq<Sym>, shape: Shape)
    requires Spelled(ss, shape)
    ensures MatchShape(ss) == Some((|Spell(shape)|, shape))
  {
    hide MatchRest, SpellElems, Ending;
    var a, bc := Opening(shape.outer), SpellElems(shape.elems) + Ending(shape);
    PrefixSplit(ss, a, bc);
    assert At(ss, 0, LParen) == shape.outer by {
      assert ss[0] == a[0];
    }
    assert At(ss[|a|..], |bc|, Cast) == At(ss, |a| + |bc|, Cast);
    RestComplete(shape, ss[|a|..]);
  }

  // The recogniser accepts exactly the spellings of the grammar, and finds the spelling.
  lemma MatchIffSpelled(ss: seq<Sym>, shape: Shape, n: nat)
    ensures MatchShape(ss) == Some((n, shape)) <==> Spelled(ss, shape) && n == |Spell(shape)|
  {
    if MatchShape(ss) == Some((n, shape)) {
      MatchSound(ss);
    }
    if Spelled(ss, shape) {
      MatchComplete(ss, shape);
    }
  }

  // Elements only depend on the symbols they consume.
  lemma ElementsLocal(a: seq<Sym>, b: seq<Sym>)
    requires Elements(a).Some?
    requires var n := Elements(a).value.0; n <= |b| && a[..n] == b[..n]
    ensures Elements(b) == Elements(a)
  {
    var (n, es) := Elements(a).value;
    ElementsSound(a);
    assert SpellElems(es) == a[..n];
    ElementsComplete(b, es);
  }

  // ---------------------------------------------------------------- balanced brackets

  function Depth(depth: int, s: Sym): int {
    if s == LBracket then depth + 1 else if s == RBracket then depth - 1 else depth
  }

  // How many symbols bring the bracket depth to zero, or all of them.
  function Skip(ss: seq<Sym>, depth: int): (r: nat)
    ensures r <= |ss|
    ensures ss != [] ==> r > 0
  {
    if ss == [] then 0
    else if Depth(depth, ss[0]) == 0 then 1
    else 1 + Skip(ss[1..], Depth(depth, ss[0]))
  }

  // Unless it takes all symbols, what is skipped does not depend on what follows it.
  lemma {:induction false} SkipLocal(a: seq<Sym>, b: seq<Sym>, depth: int)
    requires Skip(a, depth) < |a|
    requires Skip(a, depth) <= |b| && a[..Skip(a, depth)] == b[..Skip(a, depth)]
    ensures Skip(b, depth) == Skip(a, depth)
  {
    var k := Skip(a, depth);
    assert a[0] == a[..k][0] == b[..k][0] == b[0];
    if Depth(depth, a[0]) != 0 {
      assert a[1..][..k - 1] == a[..k][1..];
      assert b[1..][..k - 1] == b[..k][1..];
      SkipLocal(a[1..], b[1..], Depth(depth, a[0]));
    }
  }

  lemma {:induction false} SkipTo(ss: seq<Sym>, k: nat)
    requires k < |ss| && ss[k] == RBracket
    requires forall i | 0 <= i < k :: ss[i] != LBracket && ss[i] != RBracket
    ensures Skip(ss, 1) == k + 1
    decreases k
  {
    if k > 0 {
      SkipTo(ss[1..], k - 1);
    }
  }

  lemma {:induction false} SpellElemsBrackets(es: seq<Elem>)
    requires es != []
    ensures |SpellElems(es)| > 0 && SpellElems(es)[|SpellElems(es)| - 1] == RBracket
    ensures forall i | 0 <= i < |SpellElems(es)| - 1 :: SpellElems(es)[i] != LBracket && SpellElems(es)[i] != RBracket
  {
    var head := SpellElem(es[0]);
    assert forall i | 0 <= i < |head| :: head[i] != LBracket && head[i] != RBracket;
    if |es| > 1 {
      SpellElemsBrackets(es[1..]);
    }
  }

  // Recognised elements end where the bracket that opened them is closed.
  lemma ElementsSkip(ss: seq<Sym>)
    requires Elements(ss).Some?
    ensures Skip(ss, 1) == Elements(ss).value.0
  {
    var (n, es) := Elements(ss).value;
    ElementsSound(ss);
    SpellElemsBrackets(es);
    SkipTo(ss, n - 1);
  }
}
