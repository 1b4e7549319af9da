// The tokenizer of SQL catalog definitions. `Lex` is the specification: a definition is a
// list of lexemes, each with the white space before it, then trailing white space.
// `Scans` says, without running a tokenizer, that a list of lexemes is one a text has.
module SqlLexer {
  import opened Wrappers

  datatype Kind = Literal | Quoted | Word | Symbol

  // The source's token: text lowered for words, and its place in the definition.
  datatype SqlToken = SqlToken(kind: Kind, value: string, start: nat, end: nat)

  datatype Lexeme = Lexeme(lead: string, kind: Kind, text: string)

  type Lexed = Option<(seq<Lexeme>, string)>

  predicate IsSpace(c: char) {
    var n := c as int;
    || 0x09 <= n <= 0x0D || 0x1C <= n <= 0x20 || n == 0x85 || n == 0xA0 || n == 0x1680
    || 0x2000 <= n <= 0x200A || n == 0x2028 || n == 0x2029 || n == 0x202F || n == 0x205F || n == 0x3000
  }

  predicate AllSpace(s: string) {
    forall i | 0 <= i < |s| :: IsSpace(s[i])
  }

  predicate IsWordStart(c: char) {
    'a' <= c <= 'z' || 'A' <= c <= 'Z' || c == '_'
  }

  predicate IsWordChar(c: char) {
    IsWordStart(c) || '0' <= c <= '9'
  }

  function LowerChar(c: char): char {
    if 'A' <= c <= 'Z' then (c as int + 32) as char else c
  }

  function Lower(s: string): (r: string)
    ensures |r| == |s|
    ensures forall i | 0 <= i < |s| :: r[i] == LowerChar(s[i])
  {
    seq(|s|, i requires 0 <= i < |s| => LowerChar(s[i]))
  }

  // What a token is compared by: words are case-insensitive.
  function Value(l: Lexeme): string {
    if l.kind == Word then Lower(l.text) else l.text
  }

  // The index just after the quote that closes the one before `i`; a backslash or the end is refused.
  function QuoteEnd(s: string, i: nat, quote: char): (r: Option<nat>)
    requires i <= |s|
    ensures r.Some? ==> i < r.value <= |s|
    decreases |s| - i
  {
    if i == |s| || s[i] == '\\' then None
    else if s[i] != quote then QuoteEnd(s, i + 1, quote)
    else if i + 1 < |s| && s[i + 1] == quote then QuoteEnd(s, i + 2, quote)
    else Some(i + 1)
  }

  function WordEnd(s: string, i: nat): (r: nat)
    requires i <= |s|
    ensures i <= r <= |s|
    ensures forall j | i <= j < r :: IsWordChar(s[j])
    ensures r < |s| ==> !IsWordChar(s[r])
    decreases |s| - i
  {
    if i < |s| && IsWordChar(s[i]) then WordEnd(s, i + 1) else i
  }

  predicate StartsWith(s: string, prefix: string) {
    prefix <= s
  }

  // Kind and length of the first token of a text that starts with no space; None refuses the text.
  function LexOne(s: string): (r: Option<(Kind, nat)>)
    requires s != "" && !IsSpace(s[0])
    ensures r.Some? ==> 0 < r.value.1 <= |s|
  {
    var c := s[0];
    if c == '\'' || c == '"' then
      match QuoteEnd(s, 1, c)
      case None => None
      case Some(n) => Some((if c == '\'' then Literal else Quoted, n))
    else if c == '$' || c == '\\' || StartsWith(s, "--") || StartsWith(s, "/*") then None
    else if (c == 'e' || c == 'E') && 1 < |s| && s[1] == '\'' then None
    else if IsWordStart(c) then Some((Word, WordEnd(s, 1)))
    else Some((Symbol, if StartsWith(s, "::") then 2 else 1))
  }

  function Prepend(done: seq<Lexeme>, rest: Lexed): Lexed {
    match rest
    case None => None
    case Some((ts, trail)) => Some((done + ts, trail))
  }

  function LexFrom(lead: string, s: string): Lexed
    decreases |s|
  {
    if s == "" then Some(([], lead))
    else if IsSpace(s[0]) then LexFrom(lead + [s[0]], s[1..])
    else
      match LexOne(s)
      case None => None
      case Some((kind, n)) => Prepend([Lexeme(lead, kind, s[..n])], LexFrom("", s[n..]))
  }

  function Lex(s: string): Lexed {
    LexFrom("", s)
  }

  function Render(ts: seq<Lexeme>, trail: string): string {
    if ts == [] then trail else ts[0].lead + ts[0].text + Render(ts[1..], trail)
  }

  // ---------------------------------------------------------------- tokens, without a tokenizer

  // The inside of a quoted text: no backslash, and its quote only doubled.
  predicate QuoteBody(b: string, quote: char) {
    || b == ""
    || (b[0] != quote && b[0] != '\\' && QuoteBody(b[1..], quote))
    || (|b| >= 2 && b[0] == quote && b[1] == quote && QuoteBody(b[2..], quote))
  }

  predicate QuotedText(x: string, quote: char) {
    |x| >= 2 && x[0] == quote && x[|x| - 1] == quote && QuoteBody(x[1..|x| - 1], quote)
  }

  predicate WordText(x: string) {
    x != "" && IsWordStart(x[0]) && forall i | 0 <= i < |x| :: IsWordChar(x[i])
  }

  predicate IsSymbol(c: char) {
    !IsSpace(c) && !IsWordStart(c) && c !in {'\'', '"', '$', '\\'}
  }

  // What each kind of token looks like.
  predicate TokenText(t: Lexeme) {
    match t.kind
    case Literal => QuotedText(t.text, '\'')
    case Quoted => QuotedText(t.text, '"')
    case Word => WordText(t.text)
    case Symbol => t.text == "::" || (|t.text| == 1 && IsSymbol(t.text[0]))
  }

  // A token ends where it does: quotes are not doubled there, words are whole, and no two symbols make
  // a comment or a cast, nor do a letter E and a quote make an escape string.
  predicate MayFollow(t: Lexeme, following: string) {
    following == "" ||
    var c := following[0];
    match t.kind
    case Literal => c != '\''
    case Quoted => c != '"'
    case Word => !IsWordChar(c) && !((t.text == "e" || t.text == "E") && c == '\'')
    case Symbol =>
      && !(t.text == "-" && c == '-') && !(t.text == "/" && c == '*') && !(t.text == ":" && c == ':')
  }

  predicate Starts(t: Lexeme, following: string) {
    TokenText(t) && MayFollow(t, following)
  }

  // The tokens up to a text that follows them.
  predicate Chain(ts: seq<Lexeme>, trail: string) {
    ts == [] || (AllSpace(ts[0].lead) && Starts(ts[0], Render(ts[1..], trail)) && Chain(ts[1..], trail))
  }

  // The tokens of a whole text, with the space at its end.
  predicate Scans(ts: seq<Lexeme>, trail: string) {
    AllSpace(trail) && Chain(ts, trail)
  }

  // Behind an opening quote, the text ends or holds a backslash before the quote is closed.
  ghost predicate Unclosed(s: string, quote: char) {
    exists n | 0 <= n <= |s| :: QuoteBody(s[..n], quote) && (n == |s| || s[n] == '\\')
  }

  ghost predicate OpenQuote(s: string) {
    s != "" && (s[0] == '\'' || s[0] == '"') && Unclosed(s[1..], s[0])
  }

  // Text that may not start a token: dollar quotes, backslashes, comments, escape strings and open quotes.
  ghost predicate Refused(s: string) {
    && s != ""
    && (|| s[0] == '$' || s[0] == '\\' || StartsWith(s, "--") || StartsWith(s, "/*")
        || StartsWith(s, "e'") || StartsWith(s, "E'") || OpenQuote(s))
  }

  // Quoted text is read to where its body ends.
  lemma {:induction false} QuoteEndOf(b: string, r: string, quote: char)
    requires QuoteBody(b, quote) && quote != '\\'
    ensures r == "" || r[0] == '\\' ==> QuoteEnd(b + r, 0, quote).None?
    ensures r != "" && r[0] == quote && (|r| == 1 || r[1] != quote) ==> QuoteEnd(b + r, 0, quote) == Some(|b| + 1)
  {
    if b == "" {
      assert b + r == r;
    } else if b[0] != quote {
      QuoteEndOf(b[1..], r, quote);
      assert (b + r)[1..] == b[1..] + r;
      QuoteShift(b + r, 1, 0, quote);
    } else {
      QuoteEndOf(b[2..], r, quote);
      assert (b + r)[2..] == b[2..] + r;
      QuoteShift(b + r, 2, 0, quote);
    }
  }

  // Reading a text from a place is reading the rest of it.
  lemma {:induction false} QuoteShift(s: string, k: nat, i: nat, quote: char)
    requires k + i <= |s|
    ensures var a, b := QuoteEnd(s, k + i, quote), QuoteEnd(s[k..], i, quote);
            (a.Some? <==> b.Some?) && (a.Some? ==> a.value == b.value + k)
    decreases |s| - i
  {
    if k + i < |s| {
      assert s[k..][i] == s[k + i];
      if s[k + i] == quote && k + i + 1 < |s| && s[k + i + 1] == quote {
        assert s[k..][i + 1] == s[k + i + 1];
        QuoteShift(s, k, i + 2, quote);
      } else if s[k + i] != '\\' && s[k + i] != quote {
        QuoteShift(s, k, i + 1, quote);
      }
    }
  }

  // The body of a quoted text, up to its closing quote, a backslash or the end.
  lemma {:induction false} BodyOf(s: string, quote: char) returns (n: nat)
    requires quote != '\\'
    ensures n <= |s| && QuoteBody(s[..n], quote)
    ensures n == |s| || s[n] == '\\' || (s[n] == quote && (n + 1 == |s| || s[n + 1] != quote))
  {
    if s == "" || s[0] == '\\' {
      n := 0;
    } else if s[0] != quote {
      n := BodyOf(s[1..], quote);
      n := n + 1;
      assert s[..n][1..] == s[1..][..n - 1];
    } else if |s| == 1 || s[1] != quote {
      n := 0;
    } else {
      n := BodyOf(s[2..], quote);
      n := n + 2;
      assert s[..n][2..] == s[2..][..n - 2];
    }
  }

  // What is read behind an opening quote.
  lemma QuoteCases(s: string, quote: char)
    requires quote != '\\'
    ensures QuoteEnd(s, 0, quote).None? <==> Unclosed(s, quote)
    ensures QuoteEnd(s, 0, quote).Some? ==>
              var n := QuoteEnd(s, 0, quote).value;
              1 <= n <= |s| && QuoteBody(s[..n - 1], quote) && s[n - 1] == quote && (n == |s| || s[n] != quote)
  {
    hide QuoteEnd, QuoteBody;
    var n := BodyOf(s, quote);
    assert s == s[..n] + s[n..];
    QuoteEndOf(s[..n], s[n..], quote);
    forall k | 0 <= k <= |s| && QuoteBody(s[..k], quote) && (k == |s| || s[k] == '\\')
      ensures QuoteEnd(s, 0, quote).None?
    {
      assert s == s[..k] + s[k..];
      QuoteEndOf(s[..k], s[k..], quote);
    }
  }

  lemma Inside(s: string, n: nat)
    requires 2 <= n <= |s|
    ensures s[..n][0] == s[0] && s[..n][n - 1] == s[1..][n - 2] && s[..n][1..n - 1] == s[1..][..n - 2]
  {
  }

  // What the tokenizer makes of a text that starts with a quote.
  lemma QuoteOne(s: string)
    requires s != "" && (s[0] == '\'' || s[0] == '"')
    ensures QuoteEnd(s, 1, s[0]).None? <==> OpenQuote(s)
    ensures QuoteEnd(s, 1, s[0]).Some? ==>
              var n := QuoteEnd(s, 1, s[0]).value;
              2 <= n <= |s| && QuotedText(s[..n], s[0]) && (n == |s| || s[n] != s[0])
  {
    hide QuoteEnd, QuoteBody, Unclosed;
    QuoteShift(s, 1, 0, s[0]);
    QuoteCases(s[1..], s[0]);
    if QuoteEnd(s, 1, s[0]).Some? {
      var n := QuoteEnd(s, 1, s[0]).value;
      Inside(s, n);
      assert n < |s| ==> s[1..][n - 1] == s[n];
    }
  }

  // The tokenizer takes the token that the text starts with, and refuses the text exactly if none may.
  lemma OneExactly(s: string)
    requires s != "" && !IsSpace(s[0])
    ensures LexOne(s).None? <==> Refused(s)
    ensures LexOne(s).Some? ==>
              var (kind, n) := LexOne(s).value; forall lead :: Starts(Lexeme(lead, kind, s[..n]), s[n..])
  {
    hide QuoteBody, QuoteEnd, OpenQuote;
    if s[0] == '\'' || s[0] == '"' {
      QuoteOne(s);
    } else {
      NoQuote(s);
      if IsWordStart(s[0]) {
        assert |s| > 1 ==>
          (StartsWith(s, "e'") || StartsWith(s, "E'") <==> (s[0] == 'e' || s[0] == 'E') && s[1] == '\'');
      }
    }
  }

  lemma NoQuote(s: string)
    requires s != "" && s[0] != '\'' && s[0] != '"'
    ensures !OpenQuote(s)
  {
  }

  lemma StartsOne(t: Lexeme, following: string)
    requires Starts(t, following)
    ensures t.text != "" && !IsSpace(t.text[0]) && LexOne(t.text + following) == Some((t.kind, |t.text|))
  {
    hide QuoteBody, QuoteEnd;
    var x, s := t.text, t.text + following;
    if t.kind == Literal || t.kind == Quoted {
      QuoteStart(x, following, x[0]);
    } else if t.kind == Word {
      WordEndAt(x, following, 1);
      assert |x| > 1 ==> s[1] == x[1];
    } else {
      assert |x| == 1 && following != "" ==> s[1] == following[0];
    }
  }

  lemma QuoteStart(x: string, r: string, quote: char)
    requires QuotedText(x, quote) && quote != '\\' && (r == "" || r[0] != quote)
    ensures QuoteEnd(x + r, 1, quote) == Some(|x|)
  {
    var b, rest := x[1..|x| - 1], [quote] + r;
    assert (x + r)[1..] == b + rest;
    QuoteEndOf(b, rest, quote);
    QuoteShift(x + r, 1, 0, quote);
  }

  lemma {:induction false} RenderAppend(a: seq<Lexeme>, b: seq<Lexeme>, trail: string)
    ensures Render(a + b, trail) == Render(a, Render(b, trail))
  {
    if a == [] {
      assert a + b == b;
    } else {
      assert (a + b)[1..] == a[1..] + b;
      RenderAppend(a[1..], b, trail);
    }
  }

  lemma {:induction false} RenderTrail(a: seq<Lexeme>, x: string)
    ensures Render(a, x) == Render(a, "") + x
  {
    if a != [] {
      RenderTrail(a[1..], x);
    }
  }

  // Soundness of the tokenizer: the lexemes are those of the text, and nothing of it is lost.
  lemma {:induction false} LexScans(lead: string, s: string)
    requires AllSpace(lead)
    ensures LexFrom(lead, s).Some? ==>
              var (ts, trail) := LexFrom(lead, s).value;
              Scans(ts, trail) && Render(ts, trail) == lead + s
    decreases |s|
  {
    hide Starts, LexOne, Refused;
    if s == "" {
    } else if IsSpace(s[0]) {
      LexScans(lead + [s[0]], s[1..]);
      assert lead + [s[0]] + s[1..] == lead + s;
    } else if LexOne(s).Some? {
      var (kind, n) := LexOne(s).value;
      OneExactly(s);
      LexScans("", s[n..]);
      if LexFrom("", s[n..]).Some? {
        var (ts, trail) := LexFrom("", s[n..]).value;
        var all := [Lexeme(lead, kind, s[..n])] + ts;
        assert all[1..] == ts;
        assert s[..n] + s[n..] == s;
        assert Render(ts, trail) == s[n..];
        assert lead + s[..n] + s[n..] == lead + s;
      }
    }
  }

  lemma {:induction false} LexSpace(lead: string, space: string, s: string)
    requires AllSpace(space)
    ensures LexFrom(lead, space + s) == LexFrom(lead + space, s)
    decreases |space|
  {
    if space == "" {
      assert space + s == s && lead + space == lead;
    } else {
      assert (space + s)[1..] == space[1..] + s;
      assert lead + [space[0]] + space[1..] == lead + space;
      LexSpace(lead + [space[0]], space[1..], s);
    }
  }

  // The tokenizer takes a token and goes on.
  lemma LexToken(t: Lexeme, rest: string)
    requires AllSpace(t.lead) && Starts(t, rest)
    ensures Lex(t.lead + t.text + rest) == Prepend([t], Lex(rest))
  {
    hide Starts, LexOne;
    StartsOne(t, rest);
    LexSpace("", t.lead, t.text + rest);
    assert t.lead + (t.text + rest) == t.lead + t.text + rest && "" + t.lead == t.lead;
    assert (t.text + rest)[..|t.text|] == t.text && (t.text + rest)[|t.text|..] == rest;
    assert Lexeme(t.lead, t.kind, t.text) == t;
  }

  // Completeness: a list of lexemes that scans is the one the tokenizer finds in its text.
  lemma {:induction false} ScansLex(ts: seq<Lexeme>, trail: string)
    requires Scans(ts, trail)
    ensures Lex(Render(ts, trail)) == Some((ts, trail))
  {
    hide Starts;
    if ts == [] {
      LexSpace("", trail, "");
      assert trail + "" == trail && "" + trail == trail;
    } else {
      hide Lex;
      ScansLex(ts[1..], trail);
      LexToken(ts[0], Render(ts[1..], trail));
      assert [ts[0]] + ts[1..] == ts;
    }
  }

  // A text is cut at this place: tokens, space, and then something that may not start a token.
  ghost predicate RefusedAt(s: string, ts: seq<Lexeme>, lead: string, rest: string) {
    AllSpace(lead) && Refused(rest) && Chain(ts, lead + rest) && s == Render(ts, lead + rest)
  }

  // A text is refused exactly if, behind tokens and space, something is left that may not start one.
  lemma {:induction false} LexRefused(s: string)
    ensures Lex(s).None? <==> exists ts, lead, rest :: RefusedAt(s, ts, lead, rest)
  {
    hide RefusedAt;
    if Lex(s).None? {
      var ts, lead, rest := FindRefused("", s);
      assert "" + s == s;
    }
    forall ts, lead, rest | RefusedAt(s, ts, lead, rest) ensures Lex(s).None? {
      AtRefused(s, ts, lead, rest);
    }
  }

  // Refused behind one more token.
  lemma RefusedLater(t: Lexeme, s: string, ts: seq<Lexeme>, lead: string, rest: string)
    requires AllSpace(t.lead) && Starts(t, s) && RefusedAt("" + s, ts, lead, rest)
    ensures RefusedAt(t.lead + t.text + s, [t] + ts, lead, rest)
  {
    hide Starts, Refused;
    assert ([t] + ts)[1..] == ts;
    assert "" + s == s;
  }

  lemma {:induction false} FindRefused(space: string, s: string) returns (ts: seq<Lexeme>, lead: string, rest: string)
    requires AllSpace(space) && LexFrom(space, s).None?
    ensures RefusedAt(space + s, ts, lead, rest)
    decreases |s|
  {
    hide Starts, LexOne, Refused;
    if IsSpace(s[0]) {
      ts, lead, rest := FindRefused(space + [s[0]], s[1..]);
      assert space + [s[0]] + s[1..] == space + s;
    } else {
      OneExactly(s);
      if LexOne(s).None? {
        ts, lead, rest := [], space, s;
      } else {
        var (kind, n) := LexOne(s).value;
        ts, lead, rest := FindRefused("", s[n..]);
        RefusedLater(Lexeme(space, kind, s[..n]), s[n..], ts, lead, rest);
        assert space + s[..n] + s[n..] == space + s by {
          assert s[..n] + s[n..] == s;
        }
        ts := [Lexeme(space, kind, s[..n])] + ts;
      }
    }
  }

  lemma {:induction false} AtRefused(s: string, ts: seq<Lexeme>, lead: string, rest: string)
    requires RefusedAt(s, ts, lead, rest)
    ensures Lex(s).None?
    decreases |ts|
  {
    hide Starts, LexOne, Refused;
    if ts == [] {
      RefusedStart(rest);
      LexSpace("", lead, rest);
      OneExactly(rest);
    } else {
      AtRefused(Render(ts[1..], lead + rest), ts[1..], lead, rest);
      LexToken(ts[0], Render(ts[1..], lead + rest));
    }
  }

  lemma RefusedStart(s: string)
    requires Refused(s)
    ensures s != "" && !IsSpace(s[0])
  {
  }

  // The text of one string literal, closed at its end.
  predicate LiteralText(x: string) {
    QuotedText(x, '\'')
  }

  lemma LiteralStarts(x: string, r: string)
    requires LiteralText(x)
    requires r == "" || r[0] != '\''
    ensures Starts(Lexeme("", Literal, x), r)
  {
  }

  lemma StartsLiteral(t: Lexeme, r: string)
    requires t.kind == Literal && Starts(t, r)
    ensures LiteralText(t.text)
  {
  }

  lemma {:induction false} WordEndAt(x: string, r: string, i: nat)
    requires i <= |x|
    requires forall j | i <= j < |x| :: IsWordChar(x[j])
    requires r == "" || !IsWordChar(r[0])
    ensures WordEnd(x + r, i) == |x|
    decreases |x| - i
  {
    if i < |x| {
      WordEndAt(x, r, i + 1);
    }
  }

  lemma WordStarts(x: string, r: string)
    requires 1 < |x| && IsWordStart(x[0]) && forall j | 0 <= j < |x| :: IsWordChar(x[j])
    requires r == "" || !IsWordChar(r[0])
    ensures Starts(Lexeme("", Word, x), r)
  {
  }

  // What may follow a token without changing it: the same first character, or a letter A for another
  // letter A, or a letter A for an opening parenthesis when the token is one of `wraps`.
  ghost predicate SameStart(r: string, r': string, wraps: bool) {
    && (r == "" <==> r' == "")
    && (r != "" ==>
          || r'[0] == r[0]
          || (r'[0] == 'A' && (r[0] == 'a' || r[0] == 'A' || (r[0] == '(' && wraps))))
  }

  const WRAPS: set<string> := {"(", "[", ",", "=", "<", ">", "+", "-", "*", "/", "!", "|", "&"}

  // Whether a '(' after this token may belong to the cast of an array.
  predicate CanWrap(t: Lexeme) {
    t.kind == Symbol && t.text in WRAPS
  }

  lemma StartsLocal(t: Lexeme, r: string, r': string)
    requires Starts(t, r) && SameStart(r, r', CanWrap(t))
    ensures Starts(t, r')
  {
    hide QuoteBody;
  }
}
