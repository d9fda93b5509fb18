/** Every command tree has a text that parses to it. */
module ShellRoundTrip {
  import opened Shell

  /** A command with its words written out. */
  datatype Tree = TExec(words: seq<string>) | TRedir(tree: Tree, file: string, out: bool)
                | TPipe(left: Tree, right: Tree) | TList(left: Tree, right: Tree) | TBack(tree: Tree)

  function TextOf(s: string, w: Span): string {
    if w.q <= w.eq <= |s| then s[w.q..w.eq] else ""
  }

  function TreeOf(s: string, c: Cmd): Tree {
    match c
    case Exec(args) => TExec(seq(|args|, k requires 0 <= k < |args| => TextOf(s, args[k])))
    case Redir(d, r) => TRedir(TreeOf(s, d), TextOf(s, r.file), r.out)
    case Pipe(l, r) => TPipe(TreeOf(s, l), TreeOf(s, r))
    case List(l, r) => TList(TreeOf(s, l), TreeOf(s, r))
    case Back(d) => TBack(TreeOf(s, d))
  }

  ghost predicate IsWord(w: string) { |w| > 0 && forall k :: 0 <= k < |w| ==> IsWordChar(w[k]) && w[k] != '\0' }

  ghost predicate AllWords(words: seq<string>) { forall k :: 0 <= k < |words| ==> IsWord(words[k]) }

  /** The trees a line can spell: proper words, fewer than MAXARGS of them in a command. */
  ghost predicate Spelled(t: Tree) {
    match t
    case TExec(words) => |words| < MAXARGS && AllWords(words)
    case TRedir(d, file, _) => Spelled(d) && IsWord(file)
    case TPipe(l, r) => Spelled(l) && Spelled(r)
    case TList(l, r) => Spelled(l) && Spelled(r)
    case TBack(d) => Spelled(d)
  }

  function Join(words: seq<string>): string {
    if words == [] then "" else if |words| == 1 then words[0] else words[0] + " " + Join(words[1..])
  }

  function Block(t: Tree): string
    decreases t, 1
  {
    "(" + Render(t) + ")"
  }

  /** Fully parenthesised text. */
  function Render(t: Tree): string
    decreases t, 0
  {
    match t
    case TExec(words) => Join(words)
    case TRedir(d, file, out) => Block(d) + (if out then ">" else "<") + file
    case TPipe(l, r) => Block(l) + "|" + Block(r)
    case TList(l, r) => Block(l) + ";" + Block(r)
    case TBack(d) => Block(d) + "&"
  }

  /** `w` stands in `s` from `i` to `j`. */
  ghost predicate At(s: string, i: nat, w: string, j: nat) {
    j == i + |w| <= |s| && s[i..j] == w
  }

  lemma AtParts(s: string, i: nat, v: string, w: string, j: nat)
    requires At(s, i, v + w, j)
    ensures At(s, i, v, i + |v|) && At(s, i + |v|, w, j)
  {
    assert s[i..i + |v|] == s[i..j][..|v|];
    assert s[i + |v|..j] == s[i..j][|v|..];
  }

  /** Where a command in parentheses, or a whole line, ends. */
  predicate Stops(s: string, j: nat) { j == |s| || (j < |s| && s[j] == ')') }

  /** No white space at `j`. */
  predicate Solid(s: string, j: nat) { j == |s| || (j < |s| && !IsSpace(s[j])) }

  lemma SkipSolid(s: string, j: nat)
    requires j <= |s| && Solid(s, j)
    ensures Skip(s, j) == j
  {}

  lemma SymbolToken(s: string, i: nat, c: char)
    requires i < |s| && s[i] == c && IsSymbol(c) && Solid(s, i + 1) && (c == '>' ==> !(i + 1 < |s| && s[i + 1] == '>'))
    ensures Skip(s, i) == i && GetToken(s, i) == Token(Symbol(c), i, i + 1, i + 1)
  {
    SkipSolid(s, i + 1);
  }

  lemma WordToken(s: string, i: nat, w: string)
    requires At(s, i, w, i + |w|) && IsWord(w) && (i + |w| < |s| ==> !IsWordChar(s[i + |w|]))
    ensures i < |s| && Solid(s, i) && Skip(s, i) == i && IsWordChar(s[i])
    ensures GetToken(s, i) == Token(Word, i, i + |w|, Skip(s, i + |w|))
  {
    var j := i + |w|;
    assert forall k :: i <= k < j ==> s[k] == s[i..j][k - i];
    assert WordEnd(s, i) == j;
  }

  /** What a rendering starts with: a parenthesis, a word, or nothing and then its stop. */
  lemma StartsSolid(s: string, i: nat, t: Tree, j: nat)
    requires Spelled(t) && At(s, i, Render(t), j) && Stops(s, j)
    ensures Solid(s, i)
  {
    match t {
      case TExec(words) =>
        if |words| > 0 {
          FirstWord(s, i, words, j);
        }
      case _ =>
        assert Render(t)[0] == '(';
        assert s[i] == s[i..j][0];
    }
  }

  lemma FirstWord(s: string, i: nat, words: seq<string>, j: nat)
    requires |words| > 0 && At(s, i, Join(words), j) && AllWords(words) && Stops(s, j)
    ensures At(s, i, words[0], i + |words[0]|) && (i + |words[0]| < |s| ==> !IsWordChar(s[i + |words[0]|]))
    ensures i < |s| && Solid(s, i) && IsWordChar(s[i])
    ensures |words| > 1 ==>
              i + |words[0]| < |s| && s[i + |words[0]|] == ' ' && At(s, i + |words[0]| + 1, Join(words[1..]), j)
    ensures |words| == 1 ==> i + |words[0]| == j
  {
    if |words| > 1 {
      assert Join(words) == words[0] + (" " + Join(words[1..]));
      AtParts(s, i, words[0], " " + Join(words[1..]), j);
      AtParts(s, i + |words[0]|, " ", Join(words[1..]), j);
      assert s[i + |words[0]|] == s[i + |words[0]|..i + |words[0]| + 1][0];
    }
    WordToken(s, i, words[0]);
  }

  // ---- what stands where ----

  lemma InBlock(s: string, i: nat, t: Tree, j: nat)
    requires Spelled(t) && At(s, i, Block(t), j)
    ensures i + 1 <= j - 1 && j <= |s| && s[i] == '(' && s[j - 1] == ')' && At(s, i + 1, Render(t), j - 1) &&
            Solid(s, i + 1)
  {
    AtParts(s, i, "(" + Render(t), ")", j);
    AtParts(s, i, "(", Render(t), j - 1);
    assert s[i] == s[i..i + 1][0] && s[j - 1] == s[j - 1..j][0];
    StartsSolid(s, i + 1, t, j - 1);
  }

  lemma BlockThen(s: string, i: nat, t: Tree, op: string, w: string, j: nat)
    requires |op| == 1 && At(s, i, Block(t) + op + w, j)
    ensures var k := i + |Block(t)|;
            At(s, i, Block(t), k) && k < |s| && s[k] == op[0] && At(s, k + 1, w, j) && j == k + 1 + |w|
  {
    var k := i + |Block(t)|;
    AtParts(s, i, Block(t) + op, w, j);
    AtParts(s, i, Block(t), op, k + 1);
    assert s[k] == s[k..k + 1][0];
  }

  // ---- one rule of the grammar at a time ----

  lemma PeekAt(s: string, j: nat, toks: string)
    requires j <= |s| && Solid(s, j)
    ensures Skip(s, j) == j && (Peek(s, j, toks) <==> j < |s| && s[j] in toks)
  {}

  /** Nothing to redirect at a word, a stop, or any symbol but the two. */
  lemma NoRedirs(s: string, i: nat, rs: seq<Redirection>)
    requires i <= |s| && Solid(s, i) && (i < |s| ==> s[i] != '<' && s[i] != '>')
    ensures ParseRedirs(s, i, rs) == Ok(rs, i)
  {
    PeekAt(s, i, "<>");
  }

  lemma OneRedir(s: string, k: nat, file: string, j: nat, out: bool)
    requires k < |s| && s[k] == (if out then '>' else '<') && At(s, k + 1, file, j) && IsWord(file) && Stops(s, j)
    ensures ParseRedirs(s, k, []) == Ok([Redirection(Span(k + 1, j), out)], j)
  {
    WordToken(s, k + 1, file);
    SymbolToken(s, k, s[k]);
    PeekAt(s, k, "<>");
    PeekAt(s, j, "");
    var r := Redirection(Span(k + 1, j), out);
    assert [] + [r] == [r];
    hide GetToken, Skip;
    NoRedirs(s, j, [r]);
  }

  lemma PipeEnds(s: string, i: nat, c: Cmd, k: nat)
    requires i <= k <= |s| && ParseExec(s, i) == Ok(c, k) && Solid(s, k) && (k < |s| ==> s[k] != '|')
    ensures ParsePipe(s, i) == Ok(c, k)
  {
    PeekAt(s, k, "|");
    hide ParseExec, GetToken, Skip, Peek;
  }

  lemma PipeGoesOn(s: string, i: nat, c: Cmd, k: nat, d: Cmd, j: nat)
    requires i <= k < |s| && ParseExec(s, i) == Ok(c, k) && s[k] == '|' && Solid(s, k + 1) &&
             ParsePipe(s, k + 1) == Ok(d, j)
    ensures ParsePipe(s, i) == Ok(Pipe(c, d), j)
  {
    PeekAt(s, k, "|");
    SymbolToken(s, k, '|');
    hide ParseExec, GetToken, Skip, Peek;
  }

  lemma LineEnds(s: string, i: nat, c: Cmd, k: nat)
    requires i <= k <= |s| && ParsePipe(s, i) == Ok(c, k) && Stops(s, k)
    ensures ParseLine(s, i) == Ok(c, k)
  {
    PeekAt(s, k, "&");
    PeekAt(s, k, ";");
    assert ParseBacks(s, k, c) == (c, k);
    hide ParsePipe, GetToken, Skip, Peek, ParseBacks;
  }

  lemma LineGoesOn(s: string, i: nat, c: Cmd, k: nat, d: Cmd, j: nat)
    requires i <= k < |s| && ParsePipe(s, i) == Ok(c, k) && s[k] == ';' && Solid(s, k + 1) &&
             ParseLine(s, k + 1) == Ok(d, j)
    ensures ParseLine(s, i) == Ok(List(c, d), j)
  {
    PeekAt(s, k, "&");
    PeekAt(s, k, ";");
    SymbolToken(s, k, ';');
    assert ParseBacks(s, k, c) == (c, k);
    hide ParsePipe, GetToken, Skip, Peek, ParseBacks;
  }

  lemma BackThenStop(s: string, k: nat, c: Cmd)
    requires k < |s| && s[k] == '&' && Stops(s, k + 1)
    ensures ParseBacks(s, k, c) == (Back(c), k + 1) && Skip(s, k + 1) == k + 1 && !Peek(s, k + 1, ";")
  {
    PeekAt(s, k, "&");
    SymbolToken(s, k, '&');
    PeekAt(s, k + 1, "&");
    PeekAt(s, k + 1, ";");
    hide GetToken, Skip, Peek;
    assert ParseBacks(s, k + 1, Back(c)) == (Back(c), k + 1);
  }

  lemma LineInBack(s: string, i: nat, c: Cmd, k: nat)
    requires i <= k < |s| && ParsePipe(s, i) == Ok(c, k) && s[k] == '&' && Stops(s, k + 1)
    ensures ParseLine(s, i) == Ok(Back(c), k + 1)
  {
    BackThenStop(s, k, c);
    hide ParsePipe, GetToken, Skip, Peek, ParseBacks;
  }

  lemma BlockEnds(s: string, i: nat, c: Cmd, m: nat, rs: seq<Redirection>, k: nat)
    requires i < m < |s| && s[i] == '(' && s[m] == ')' && Solid(s, i + 1) && Solid(s, m + 1)
    requires ParseLine(s, i + 1) == Ok(c, m) && ParseRedirs(s, m + 1, []) == Ok(rs, k)
    ensures Peek(s, i, "(") && ParseBlock(s, i) == Ok(Wrap(c, rs), k)
  {
    hide ParseLine, GetToken, Skip, Peek, ParseRedirs, Wrap;
    PeekAt(s, i, "(");
    PeekAt(s, m, ")");
    SymbolToken(s, i, '(');
    SymbolToken(s, m, ')');
  }

  lemma BlockIsExec(s: string, i: nat, r: Result<Cmd>)
    requires i <= |s| && Peek(s, i, "(") && ParseBlock(s, i) == r
    ensures ParseExec(s, i) == r
  {
    hide ParseBlock, Peek, ParseRedirs, ParseArgs;
  }

  // ---- the parts of a rendering ----

  ghost predicate Says(s: string, args: seq<Span>, words: seq<string>) {
    |args| == |words| && forall k :: 0 <= k < |words| ==> TextOf(s, args[k]) == words[k]
  }

  /** A tail of a command: the words from `i` on, after those in `args`. */
  lemma {:induction false} ArgsParse(s: string, i: nat, words: seq<string>, j: nat, args: seq<Span>)
    returns (rest: seq<Span>)
    requires At(s, i, Join(words), j) && Stops(s, j) && |args| + |words| < MAXARGS
    requires AllWords(words)
    ensures i <= |s| && ParseArgs(s, i, args, []) == Ok(Exec(args + rest), j) && Says(s, rest, words)
    decreases |words|
  {
    hide *;
    if words == [] {
      NoWords(s, i, j);
      NoMoreArgs(s, i, args);
      rest := [];
      assert args + rest == args;
    } else {
      var w, next := FirstArg(s, i, words, j, args);
      rest := ArgsParse(s, next, words[1..], j, args + [w]);
      SaysMore(s, w, rest, words);
      assert args + [w] + rest == args + ([w] + rest);
      rest := [w] + rest;
    }
  }

  lemma NoWords(s: string, i: nat, j: nat)
    requires At(s, i, Join([]), j)
    ensures i == j <= |s| && Says(s, [], [])
  {}

  lemma SaysMore(s: string, w: Span, rest: seq<Span>, words: seq<string>)
    requires |words| > 0 && TextOf(s, w) == words[0] && Says(s, rest, words[1..])
    ensures Says(s, [w] + rest, words)
  {}

  lemma FirstArg(s: string, i: nat, words: seq<string>, j: nat, args: seq<Span>) returns (w: Span, next: nat)
    requires |words| > 0 && At(s, i, Join(words), j) && Stops(s, j) && |args| + |words| < MAXARGS && AllWords(words)
    ensures At(s, next, Join(words[1..]), j) && AllWords(words[1..]) && TextOf(s, w) == words[0]
    ensures i <= |s| && next <= |s| && ParseArgs(s, i, args, []) == ParseArgs(s, next, args + [w], [])
  {
    hide *;
    FirstWord(s, i, words, j);
    var e := i + |words[0]|;
    w := Span(i, e);
    AtText(s, i, words[0], e);
    next := if |words| > 1 then e + 1 else e;
    NextWord(s, words, next, j);
    OneMoreArg(s, i, words[0], next, args);
  }

  lemma AtText(s: string, i: nat, w: string, j: nat)
    requires At(s, i, w, j)
    ensures j <= |s| && TextOf(s, Span(i, j)) == w
  {}

  lemma NextWord(s: string, words: seq<string>, next: nat, j: nat)
    requires |words| > 0 && Stops(s, j) && AllWords(words)
    requires if |words| > 1 then At(s, next, Join(words[1..]), j) else next == j <= |s|
    ensures At(s, next, Join(words[1..]), j) && AllWords(words[1..]) && IsWord(words[0]) &&
            (|words| > 1 ==> next < |s| && IsWordChar(s[next]))
  {
    if |words| > 1 { FirstWord(s, next, words[1..], j); } else { assert Join(words[1..]) == ""; }
  }

  lemma NoMoreArgs(s: string, i: nat, args: seq<Span>)
    requires i <= |s| && Stops(s, i)
    ensures ParseArgs(s, i, args, []) == Ok(Exec(args), i)
  {
    PeekAt(s, i, "|)&;");
    assert Wrap(Exec(args), []) == Exec(args);
  }

  lemma OneMoreArg(s: string, i: nat, w: string, next: nat, args: seq<Span>)
    requires At(s, i, w, i + |w|) && IsWord(w) && |args| + 1 < MAXARGS && (i + |w| < |s| ==> !IsWordChar(s[i + |w|]))
    requires (next == i + |w| && Stops(s, next)) ||
             (next == i + |w| + 1 < |s| && s[i + |w|] == ' ' && IsWordChar(s[next]))
    ensures next <= |s| && ParseArgs(s, i, args, []) == ParseArgs(s, next, args + [Span(i, i + |w|)], [])
  {
    hide *;
    WordToken(s, i, w);
    WordGoesOn(s, i);
    NextSkip(s, i + |w|, next);
    ArgStep(s, i, i + |w|, next, args);
  }

  lemma WordGoesOn(s: string, i: nat)
    requires i < |s| && IsWordChar(s[i])
    ensures Skip(s, i) == i && !Peek(s, i, "|)&;") && !Peek(s, i, "(") && ParseRedirs(s, i, []) == Ok([], i)
  {}

  lemma ArgStep(s: string, i: nat, e: nat, next: nat, args: seq<Span>)
    requires i <= |s| && next <= |s| && |args| + 1 < MAXARGS && !Peek(s, i, "|)&;")
    requires GetToken(s, i) == Token(Word, i, e, next) && ParseRedirs(s, next, []) == Ok([], next)
    ensures ParseArgs(s, i, args, []) == ParseArgs(s, next, args + [Span(i, e)], [])
  {
    hide Skip, GetToken, Peek, ParseRedirs, Wrap;
  }

  lemma NextSkip(s: string, e: nat, next: nat)
    requires (next == e <= |s| && Stops(s, next)) || (next == e + 1 < |s| && s[e] == ' ' && IsWordChar(s[next]))
    ensures Skip(s, e) == next && ParseRedirs(s, next, []) == Ok([], next)
  {
    NoRedirs(s, next, []);
  }

  lemma NoBlock(s: string, i: nat, words: seq<string>, j: nat)
    requires At(s, i, Join(words), j) && AllWords(words) && Stops(s, j)
    ensures i <= j <= |s| && !Peek(s, i, "(") && ParseRedirs(s, i, []) == Ok([], i)
  {
    if |words| > 0 {
      FirstWord(s, i, words, j);
      WordGoesOn(s, i);
    } else {
      NoRedirs(s, i, []);
    }
  }

  lemma ExecStep(s: string, i: nat, r: Result<Cmd>)
    requires i <= |s| && !Peek(s, i, "(") && ParseRedirs(s, i, []) == Ok([], i) && ParseArgs(s, i, [], []) == r
    ensures ParseExec(s, i) == r
  {
    hide Peek, ParseRedirs, ParseArgs;
  }

  lemma SaysTree(s: string, args: seq<Span>, words: seq<string>)
    requires Says(s, args, words)
    ensures TreeOf(s, Exec(args)) == TExec(words)
  {
    assert TreeOf(s, Exec(args)).words == words;
  }

  lemma ExecParses(s: string, i: nat, words: seq<string>, j: nat) returns (c: Cmd)
    requires |words| < MAXARGS && AllWords(words) && At(s, i, Join(words), j) && Stops(s, j)
    ensures i <= j <= |s| && ParseLine(s, i) == Ok(c, j) && TreeOf(s, c) == TExec(words)
  {
    hide *;
    NoBlock(s, i, words, j);
    var all := ArgsParse(s, i, words, j, []);
    assert [] + all == all;
    c := Exec(all);
    SaysTree(s, all, words);
    ExecStep(s, i, Ok(c, j));
    StopsSolid(s, j);
    PipeEnds(s, i, c, j);
    LineEnds(s, i, c, j);
  }

  lemma StopsSolid(s: string, j: nat)
    requires j <= |s| && Stops(s, j)
    ensures Solid(s, j) && (j < |s| ==> s[j] != '|')
  {}

  lemma WrapNone(c: Cmd)
    ensures Wrap(c, []) == c
  {}

  /** A block that nothing redirects. */
  lemma PlainBlock(s: string, i: nat, t: Tree, c: Cmd, j: nat)
    requires Spelled(t) && At(s, i, Block(t), j) && Solid(s, j) && (j < |s| ==> s[j] != '<' && s[j] != '>')
    requires i + 1 <= |s| && j >= 1 && ParseLine(s, i + 1) == Ok(c, j - 1)
    ensures ParseExec(s, i) == Ok(c, j)
  {
    hide *;
    InBlock(s, i, t, j);
    NoRedirs(s, j, []);
    WrapNone(c);
    BlockEnds(s, i, c, j - 1, [], j);
    BlockIsExec(s, i, Ok(c, j));
  }

  lemma RedirParses(s: string, i: nat, t: Tree, file: string, out: bool, c: Cmd, j: nat)
    requires Spelled(t) && IsWord(file) && Stops(s, j)
    requires var k := i + |Block(t)|;
             At(s, i, Block(t), k) && k < |s| && s[k] == (if out then '>' else '<') && At(s, k + 1, file, j)
    requires var k := i + |Block(t)|; k >= 1 && i + 1 <= |s| && ParseLine(s, i + 1) == Ok(c, k - 1)
    ensures var k := i + |Block(t)| + 1;
            ParseLine(s, i) == Ok(Redir(c, Redirection(Span(k, j), out)), j) && TextOf(s, Span(k, j)) == file
  {
    hide ParseLine, ParseExec, ParsePipe, ParseRedirs, ParseBlock, Peek;
    var k := i + |Block(t)|;
    var r := Redirection(Span(k + 1, j), out);
    InBlock(s, i, t, k);
    OneRedir(s, k, file, j, out);
    BlockEnds(s, i, c, k - 1, [r], j);
    assert [r][..0] == [];
    assert Wrap(c, [r]) == Redir(Wrap(c, []), r);
    BlockIsExec(s, i, Ok(Redir(c, r), j));
    PipeEnds(s, i, Redir(c, r), j);
    LineEnds(s, i, Redir(c, r), j);
  }

  lemma PipeParses(s: string, i: nat, l: Tree, r: Tree, c: Cmd, d: Cmd, k: nat, j: nat)
    requires Spelled(l) && Spelled(r) && Stops(s, j) && At(s, i, Block(l), k) && k < |s| && s[k] == '|' &&
             At(s, k + 1, Block(r), j)
    requires k >= 1 && i + 1 <= |s| && ParseLine(s, i + 1) == Ok(c, k - 1) && k + 2 <= |s| && j >= 1 &&
             ParseLine(s, k + 2) == Ok(d, j - 1)
    ensures ParseLine(s, i) == Ok(Pipe(c, d), j)
  {
    hide ParseLine, ParseExec, ParsePipe;
    InBlock(s, k + 1, r, j);
    PlainBlock(s, i, l, c, k);
    PlainBlock(s, k + 1, r, d, j);
    PipeEnds(s, k + 1, d, j);
    PipeGoesOn(s, i, c, k, d, j);
    LineEnds(s, i, Pipe(c, d), j);
  }

  lemma ListParses(s: string, i: nat, l: Tree, r: Tree, c: Cmd, d: Cmd, k: nat, j: nat)
    requires Spelled(l) && Spelled(r) && Stops(s, j) && At(s, i, Block(l), k) && k < |s| && s[k] == ';' &&
             At(s, k + 1, Block(r), j)
    requires k >= 1 && i + 1 <= |s| && ParseLine(s, i + 1) == Ok(c, k - 1) && k + 2 <= |s| && j >= 1 &&
             ParseLine(s, k + 2) == Ok(d, j - 1)
    ensures ParseLine(s, i) == Ok(List(c, d), j)
  {
    hide ParseLine, ParseExec, ParsePipe;
    InBlock(s, k + 1, r, j);
    PlainBlock(s, i, l, c, k);
    PlainBlock(s, k + 1, r, d, j);
    PipeEnds(s, i, c, k);
    PipeEnds(s, k + 1, d, j);
    LineEnds(s, k + 1, d, j);
    LineGoesOn(s, i, c, k, d, j);
  }

  lemma BackParses(s: string, i: nat, t: Tree, c: Cmd, k: nat)
    requires Spelled(t) && At(s, i, Block(t), k) && k < |s| && s[k] == '&' && Stops(s, k + 1)
    requires k >= 1 && i + 1 <= |s| && ParseLine(s, i + 1) == Ok(c, k - 1)
    ensures ParseLine(s, i) == Ok(Back(c), k + 1)
  {
    hide ParseLine, ParseExec, ParsePipe;
    PlainBlock(s, i, t, c, k);
    PipeEnds(s, i, c, k);
    LineInBack(s, i, c, k);
  }

  lemma {:induction false} RedirCase(s: string, i: nat, t: Tree, j: nat) returns (c: Cmd)
    requires t.TRedir? && Spelled(t) && At(s, i, Render(t), j) && Stops(s, j)
    ensures ParseLine(s, i) == Ok(c, j) && TreeOf(s, c) == t
    decreases t, 0
  {
    hide ParseLine, At, Block, TextOf, Stops, IsWord, AllWords, Join, Skip, Peek, GetToken;
    var TRedir(d, file, out) := t;
    var k := i + |Block(d)|;
    BlockThen(s, i, d, if out then ">" else "<", file, j);
    var e := InsideParses(s, i, d, k);
    RedirParses(s, i, d, file, out, e, j);
    c := Redir(e, Redirection(Span(k + 1, j), out));
  }

  lemma {:induction false} PipeCase(s: string, i: nat, t: Tree, j: nat) returns (c: Cmd)
    requires t.TPipe? && Spelled(t) && At(s, i, Render(t), j) && Stops(s, j)
    ensures ParseLine(s, i) == Ok(c, j) && TreeOf(s, c) == t
    decreases t, 0
  {
    hide ParseLine, At, Block, TextOf, Stops, IsWord, AllWords, Join, Skip, Peek, GetToken;
    var TPipe(l, r) := t;
    var k := i + |Block(l)|;
    BlockThen(s, i, l, "|", Block(r), j);
    var e := InsideParses(s, i, l, k);
    var f := InsideParses(s, k + 1, r, j);
    PipeParses(s, i, l, r, e, f, k, j);
    c := Pipe(e, f);
  }

  lemma {:induction false} ListCase(s: string, i: nat, t: Tree, j: nat) returns (c: Cmd)
    requires t.TList? && Spelled(t) && At(s, i, Render(t), j) && Stops(s, j)
    ensures ParseLine(s, i) == Ok(c, j) && TreeOf(s, c) == t
    decreases t, 0
  {
    hide ParseLine, At, Block, TextOf, Stops, IsWord, AllWords, Join, Skip, Peek, GetToken;
    var TList(l, r) := t;
    var k := i + |Block(l)|;
    BlockThen(s, i, l, ";", Block(r), j);
    var e := InsideParses(s, i, l, k);
    var f := InsideParses(s, k + 1, r, j);
    ListParses(s, i, l, r, e, f, k, j);
    c := List(e, f);
  }

  lemma {:induction false} BackCase(s: string, i: nat, t: Tree, j: nat) returns (c: Cmd)
    requires t.TBack? && Spelled(t) && At(s, i, Render(t), j) && Stops(s, j)
    ensures ParseLine(s, i) == Ok(c, j) && TreeOf(s, c) == t
    decreases t, 0
  {
    hide ParseLine, At, Block, TextOf, Stops, IsWord, AllWords, Join, Skip, Peek, GetToken;
    var d := t.tree;
    assert Render(t) == Block(d) + "&" + "";
    BlockThen(s, i, d, "&", "", j);
    var e := InsideParses(s, i, d, j - 1);
    BackParses(s, i, d, e, j - 1);
    c := Back(e);
  }

  /** A rendering that stands before a stop is parsed to its tree, up to there. */
  lemma {:induction false} LineParses(s: string, i: nat, t: Tree, j: nat) returns (c: Cmd)
    requires Spelled(t) && At(s, i, Render(t), j) && Stops(s, j)
    ensures ParseLine(s, i) == Ok(c, j) && TreeOf(s, c) == t
    decreases t, 1
  {
    match t
    case TExec(words) => c := ExecParses(s, i, words, j);
    case TRedir(_, _, _) => hide *; c := RedirCase(s, i, t, j);
    case TPipe(_, _) => hide *; c := PipeCase(s, i, t, j);
    case TList(_, _) => hide *; c := ListCase(s, i, t, j);
    case TBack(_) => hide *; c := BackCase(s, i, t, j);
  }

  lemma {:induction false} InsideParses(s: string, i: nat, t: Tree, j: nat) returns (c: Cmd)
    requires Spelled(t) && At(s, i, Block(t), j)
    ensures j >= 1 && i + 1 <= |s| && ParseLine(s, i + 1) == Ok(c, j - 1) && TreeOf(s, c) == t
    decreases t, 2
  {
    InBlock(s, i, t, j);
    c := LineParses(s, i + 1, t, j - 1);
  }

  /** The round trip. */
  lemma RoundTrip(t: Tree)
    requires Spelled(t)
    ensures ParseCmd(Render(t)).Ok? && TreeOf(Render(t), ParseCmd(Render(t)).value) == t
  {
    var s := Render(t);
    assert s[0..|s|] == s;
    var c := LineParses(s, 0, t, |s|);
  }
}
