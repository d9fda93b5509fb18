/** What the parser accepts, and as what: a line is a command exactly if its tokens are a sentence of the shell's
    grammar, and then the command is what that sentence means. */
module ShellGrammar {
  import opened Shell

  // ---- tokens ----

  datatype Piece = Piece(kind: Kind, w: Span)

  /** A token as large as it can be: a symbol, the double one, or a whole word. */
  ghost predicate IsPiece(s: string, p: Piece) {
    && p.w.q < p.w.eq <= |s|
    && match p.kind
    case EndOfLine => false
    case Symbol(c) => IsSymbol(c) && s[p.w.q..p.w.eq] == [c] && !(c == '>' && p.w.eq < |s| && s[p.w.eq] == '>')
    case Append => s[p.w.q..p.w.eq] == ">>"
    case Word => (forall k :: p.w.q <= k < p.w.eq ==> IsWordChar(s[k])) && (p.w.eq < |s| ==> !IsWordChar(s[p.w.eq]))
  }

  ghost predicate Blank(s: string, i: nat, j: nat) { i <= j <= |s| && forall k :: i <= k < j ==> IsSpace(s[k]) }

  /** The line from `i` on is these tokens with white space around them. */
  ghost predicate IsLexed(s: string, i: nat, ps: seq<Piece>)
    decreases |ps|
  {
    if ps == [] then Blank(s, i, |s|)
    else Blank(s, i, ps[0].w.q) && IsPiece(s, ps[0]) && IsLexed(s, ps[0].w.eq, ps[1..])
  }

  /** The tokens that calls of `gettoken` return up to the end of the line. */
  function Pieces(s: string, i: nat): seq<Piece>
    requires i <= |s|
    decreases |s| - i
  {
    var t := GetToken(s, i);
    if t.kind == EndOfLine then [] else [Piece(t.kind, Span(t.q, t.eq))] + Pieces(s, t.next)
  }

  lemma {:induction false} SkipBlank(s: string, i: nat, j: nat)
    requires Blank(s, i, j)
    ensures Skip(s, i) == Skip(s, j)
    decreases j - i
  {
    if i < j { SkipBlank(s, i + 1, j); }
  }

  lemma {:induction false} WordIs(s: string, i: nat, j: nat)
    requires i <= j <= |s| && (j < |s| ==> !IsWordChar(s[j])) && forall k :: i <= k < j ==> IsWordChar(s[k])
    ensures WordEnd(s, i) == j
    decreases j - i
  {
    if i < j { WordIs(s, i + 1, j); }
  }

  /** `gettoken` returns the token that stands there. */
  lemma TokenIs(s: string, i: nat, p: Piece)
    requires Blank(s, i, p.w.q) && IsPiece(s, p)
    ensures GetToken(s, i) == Token(p.kind, p.w.q, p.w.eq, Skip(s, p.w.eq))
  {
    SkipBlank(s, i, p.w.q);
    var q := p.w.q;
    assert s[q] == s[q..p.w.eq][0];
    match p.kind
    case Symbol(c) => assert p.w.eq == q + 1 by { assert |s[q..p.w.eq]| == 1; }
    case Append =>
      assert p.w.eq == q + 2 by { assert |s[q..p.w.eq]| == 2; }
      assert s[q + 1] == s[q..p.w.eq][1];
    case Word => WordIs(s, q, p.w.eq);
    case EndOfLine =>
  }

  lemma TokenStands(s: string, i: nat)
    requires i <= |s| && GetToken(s, i).kind != EndOfLine
    ensures var t := GetToken(s, i);
            Blank(s, i, t.q) && IsPiece(s, Piece(t.kind, Span(t.q, t.eq))) && Blank(s, t.eq, t.next) && t.eq <= t.next
  {
    var t := GetToken(s, i);
    match t.kind
    case Append => assert s[t.q..t.eq] == [s[t.q], s[t.q + 1]];
    case Symbol(c) => assert s[t.q..t.eq] == [s[t.q]];
    case _ =>
  }

  lemma {:induction false} PiecesAfterBlank(s: string, i: nat, j: nat)
    requires Blank(s, i, j)
    ensures Pieces(s, i) == Pieces(s, j)
  {
    assert GetToken(s, i) == GetToken(s, j) by { SkipBlank(s, i, j); }
    hide GetToken;
  }

  lemma {:induction false} PiecesAreLexed(s: string, i: nat)
    requires i <= |s|
    ensures IsLexed(s, i, Pieces(s, i))
    decreases |s| - i
  {
    var t := GetToken(s, i);
    if t.kind != EndOfLine {
      TokenStands(s, i);
      PiecesAreLexed(s, t.eq);
      PiecesAfterBlank(s, t.eq, t.next);
      hide IsPiece, GetToken, Blank;
      assert Pieces(s, i)[1..] == Pieces(s, t.eq);
    }
  }

  /** There is one way to read a line as tokens, and calls of `gettoken` find it. */
  lemma {:induction false} LexIsUnique(s: string, i: nat, ps: seq<Piece>)
    requires i <= |s|
    ensures IsLexed(s, i, ps) <==> ps == Pieces(s, i)
    decreases |ps|
  {
    PiecesAreLexed(s, i);
    if IsLexed(s, i, ps) {
      if ps == [] {
        SkipBlank(s, i, |s|);
      } else {
        TokenIs(s, i, ps[0]);
        LexIsUnique(s, ps[0].w.eq, ps[1..]);
        assert Blank(s, ps[0].w.eq, Skip(s, ps[0].w.eq));
        PiecesAfterBlank(s, ps[0].w.eq, Skip(s, ps[0].w.eq));
        assert ps == [ps[0]] + ps[1..];
      }
    }
  }

  // ---- sentences ----

  /** A token without its place, except for words. */
  datatype Term = Sym(c: char) | Twice | Name(w: Span)

  /** A word, or a redirection: the symbol and the file. */
  datatype Item = Arg(w: Span) | Redirect(op: Term, file: Span)

  /** Commands joined by ;, each a pipeline with any number of & behind it; a stage of a pipeline is words and
      redirections in any order, or a line in parentheses with redirections behind it. */
  datatype Line = Last(job: Job) | Then(job: Job, rest: Line)
  datatype Job = Job(pipe: Pipeline, backs: nat)
  datatype Pipeline = Only(stage: Stage) | Into(stage: Stage, rest: Pipeline)
  datatype Stage = Simple(items: seq<Item>) | Group(line: Line, rs: seq<Item>)

  function ItemTerms(i: Item): seq<Term> {
    match i
    case Arg(w) => [Name(w)]
    case Redirect(op, f) => [op, Name(f)]
  }

  function ItemsTerms(items: seq<Item>): seq<Term> {
    if items == [] then [] else ItemTerms(items[0]) + ItemsTerms(items[1..])
  }

  function LineTerms(l: Line): seq<Term> {
    match l
    case Last(j) => JobTerms(j)
    case Then(j, rest) => JobTerms(j) + [Sym(';')] + LineTerms(rest)
  }

  function Ands(n: nat): seq<Term> { if n == 0 then [] else [Sym('&')] + Ands(n - 1) }

  function JobTerms(j: Job): seq<Term> { PipelineTerms(j.pipe) + Ands(j.backs) }

  function PipelineTerms(p: Pipeline): seq<Term> {
    match p
    case Only(st) => StageTerms(st)
    case Into(st, rest) => StageTerms(st) + [Sym('|')] + PipelineTerms(rest)
  }

  function StageTerms(st: Stage): seq<Term> {
    match st
    case Simple(items) => ItemsTerms(items)
    case Group(l, rs) => [Sym('(')] + LineTerms(l) + [Sym(')')] + ItemsTerms(rs)
  }

  function Words(items: seq<Item>): seq<Span> {
    if items == [] then [] else (if items[0].Arg? then [items[0].w] else []) + Words(items[1..])
  }

  predicate IsRedirOp(op: Term) { op == Sym('<') || op == Sym('>') || op == Twice }

  function Redirs(items: seq<Item>): seq<Redirection> {
    if items == [] then []
    else (if items[0].Redirect? then [Redirection(items[0].file, items[0].op != Sym('<'))] else []) + Redirs(items[1..])
  }

  ghost predicate ItemsOk(items: seq<Item>) {
    forall k :: 0 <= k < |items| && items[k].Redirect? ==> IsRedirOp(items[k].op)
  }

  ghost predicate NoArgs(items: seq<Item>) { forall k :: 0 <= k < |items| ==> items[k].Redirect? }

  /** Fewer than MAXARGS words in a simple command. */
  ghost predicate LineOk(l: Line) {
    match l
    case Last(j) => PipelineOk(j.pipe)
    case Then(j, rest) => PipelineOk(j.pipe) && LineOk(rest)
  }

  ghost predicate PipelineOk(p: Pipeline) {
    match p
    case Only(st) => StageOk(st)
    case Into(st, rest) => StageOk(st) && PipelineOk(rest)
  }

  ghost predicate StageOk(st: Stage) {
    match st
    case Simple(items) => ItemsOk(items) && |Words(items)| < MAXARGS
    case Group(l, rs) => LineOk(l) && ItemsOk(rs) && NoArgs(rs)
  }

  /** The redirections are made one after the other, each around what there is. */
  function Around(c: Cmd, rs: seq<Redirection>): Cmd
    decreases |rs|
  {
    if rs == [] then c else Around(Redir(c, rs[0]), rs[1..])
  }

  function Backs(c: Cmd, n: nat): Cmd { if n == 0 then c else Back(Backs(c, n - 1)) }

  /** What a sentence means: ; and | group to the right, | before & before ;. */
  function LineMeans(l: Line): Cmd {
    match l
    case Last(j) => JobMeans(j)
    case Then(j, rest) => List(JobMeans(j), LineMeans(rest))
  }

  function JobMeans(j: Job): Cmd { Backs(PipelineMeans(j.pipe), j.backs) }

  function PipelineMeans(p: Pipeline): Cmd {
    match p
    case Only(st) => StageMeans(st)
    case Into(st, rest) => Pipe(StageMeans(st), PipelineMeans(rest))
  }

  function StageMeans(st: Stage): Cmd {
    match st
    case Simple(items) => Around(Exec(Words(items)), Redirs(items))
    case Group(l, rs) => Around(LineMeans(l), Redirs(rs))
  }

  // ---- the parser sees terms ----

  function TermOf(p: Piece): Term {
    match p.kind
    case Symbol(c) => Sym(c)
    case Append => Twice
    case _ => Name(p.w)
  }

  function TermsOf(ps: seq<Piece>): seq<Term> {
    if ps == [] then [] else [TermOf(ps[0])] + TermsOf(ps[1..])
  }

  function Terms(s: string, i: nat): seq<Term>
    requires i <= |s|
  {
    TermsOf(Pieces(s, i))
  }

  predicate Leads(ts: seq<Term>, toks: string) {
    ts != [] && match ts[0]
    case Sym(c) => c in toks
    case Twice => '>' in toks
    case Name(_) => false
  }

  ghost predicate Symbols(toks: string) { forall c :: c in toks ==> IsSymbol(c) }

  lemma NextTerm(s: string, i: nat)
    requires i <= |s|
    ensures var t := GetToken(s, i);
            && (t.kind == EndOfLine <==> Terms(s, i) == [])
            && (t.kind != EndOfLine ==>
                  i < t.next && Terms(s, i) == [TermOf(Piece(t.kind, Span(t.q, t.eq)))] + Terms(s, t.next))
  {
    var t := GetToken(s, i);
    if t.kind != EndOfLine { assert Pieces(s, i)[1..] == Pieces(s, t.next); }
  }

  lemma PeekIs(s: string, i: nat, toks: string)
    requires i <= |s| && Symbols(toks)
    ensures Peek(s, i, toks) <==> Leads(Terms(s, i), toks)
  {
    NextTerm(s, i);
    hide Terms, WordEnd;
  }

  lemma SkipSame(s: string, i: nat)
    requires i <= |s|
    ensures Terms(s, Skip(s, i)) == Terms(s, i)
  {
    PiecesAfterBlank(s, i, Skip(s, i));
  }

  lemma EndsBlank(s: string, i: nat)
    requires i <= |s|
    ensures Skip(s, i) == |s| <==> Terms(s, i) == []
  {
    NextTerm(s, i);
  }
}
